/** The admin-only Klaviyo sync of app/api/admin/klaviyo/sync/route.ts.
    After the admin check it opens a RUNNING log row and walks the pages of
    one channel-filtered campaign listing. A campaign with an id is eligible
    when its status is exactly `'Sent'`; the messages of eligible campaigns
    are counted and imported one by one. For each message the template is
    resolved and rendered before the send time is checked. Every failure
    inside a message is swallowed; a failed listing, message listing or
    cursor parse ends the run. The log row's note and the JSON reply carry
    the same seven numbers. */
module AdminSync {
  import opened Wrappers
  import opened Json
  import Text
  import Seqs
  import KlaviyoClient
  import Store
  import AdminGuard
  import opened ImportSteps

  /** `encodeURIComponent("equals(messages.channel,'email')")`: the comma
      becomes `%2C`, the quotes stay. */
  const ChannelFilter: string := "equals(messages.channel%2C'email')"

  /** The listing URL of one page. */
  function PageUrl(cursor: Option<string>): string {
    ListingUrl(Some(ChannelFilter), cursor)
  }

  /** The counters of a run. `skippedNotSent` is reported as one number
      but is bumped in two places: for a listed campaign that is not
      `'Sent'`, and for a message without a send time; the two are kept
      apart here. */
  datatype Tally = Tally(
    added: nat,
    updated: nat,
    totalCampaigns: nat,
    eligible: nat,
    totalMessages: nat,
    campaignsNotSent: nat,
    messagesNotSent: nat,
    noTemplate: nat)

  /** The messages that reached a counter of their own. */
  function Settled(t: Tally): nat {
    t.added + t.updated + t.noTemplate + t.messagesNotSent
  }

  /** The two bounds the counters keep: no more campaigns are classified
      than were listed, and no more messages are settled than were
      counted. */
  predicate Consistent(t: Tally) {
    && t.eligible + t.campaignsNotSent <= t.totalCampaigns
    && Settled(t) <= t.totalMessages
  }

  datatype State = State(db: Store.Newsletters, tally: Tally)

  /** What a later state keeps of an earlier one: no id disappears, no
      counter goes down, and `added` counts exactly the ids that appeared. */
  predicate Grows(a: State, b: State) {
    && a.db.Keys <= b.db.Keys
    && a.tally.added <= b.tally.added
    && a.tally.updated <= b.tally.updated
    && a.tally.totalCampaigns <= b.tally.totalCampaigns
    && a.tally.eligible <= b.tally.eligible
    && a.tally.totalMessages <= b.tally.totalMessages
    && a.tally.campaignsNotSent <= b.tally.campaignsNotSent
    && a.tally.messagesNotSent <= b.tally.messagesNotSent
    && a.tally.noTemplate <= b.tally.noTemplate
    && |b.db| - |a.db| == b.tally.added - a.tally.added
    && (Store.WellKeyed(a.db) ==> Store.WellKeyed(b.db))
  }

  /** What handling one message comes to. */
  datatype Step =
    | Skip
    | Fail(error: string)
    | NoTemplate
    | NotSent
    | Wrote(db: Store.Newsletters, kind: Store.WriteKind)

  /** The per-message block of the sync route: message id, message
      metadata, the include-template lookup, the template chain, render,
      send-time check, upsert. Unlike the resilient importer, a message
      without a template is counted before its send time is looked at, and
      the render call is made even for a message without a send time. A
      message without a truthy id is skipped, each call that throws fails it
      with that call's error, and what gets through is written on its id
      with the content of its draft. */
  function MessageStep(deps: Deps, campaign: Json, cid: Json, m: Json, db: Store.Newsletters): (r: Step)
    ensures r.Wrote? ==>
      && StringId(m).Some? && StringId(m).value in r.db
      && Lands(db, r.db, r.kind, StringId(m).value, cid, r.db[StringId(m).value].content)
    ensures var mid := Get(Some(m), "id");
      && (!Truthy(mid) ==> r == Skip)
      && (Truthy(mid) ==>
        var meta := FetchMeta(deps.remote, mid.value);
        var tid := FetchTemplateId(deps.remote, mid.value);
        && (meta.Failure? ==> r == Fail(meta.error))
        && (meta.Success? && tid.Failure? ==> r == Fail(tid.error))
        && (meta.Success? && tid == Success(None) ==> r == NoTemplate)
        && (meta.Success? && tid.Success? && tid.value.Some? ==>
          r == Deliver(deps, campaign, cid, mid.value, meta.value, tid.value.value, db)))
  {
    var mid := Get(Some(m), "id");
    if !Truthy(mid) then Skip
    else match FetchMeta(deps.remote, mid.value)
      case Failure(e) => Fail(e)
      case Success(meta) =>
        match FetchTemplateId(deps.remote, mid.value)
        case Failure(e) => Fail(e)
        case Success(None) => NoTemplate
        case Success(Some(templateId)) =>
          var d := Deliver(deps, campaign, cid, mid.value, meta, templateId, db);
          assert d.Wrote? ==> StringId(m) == Some(mid.value.s);
          d
  }

  /** The rest of a message with a template: the render call, then the send
      time (a message without one is counted as not sent, after its render
      call was made), then the write of the draft's content on the id. */
  function Deliver(deps: Deps, campaign: Json, cid: Json, mid: Json, meta: Json, templateId: Json, db: Store.Newsletters): (r: Step)
    ensures r.Wrote? ==> mid.JStr? && mid.s in r.db && Lands(db, r.db, r.kind, mid.s, cid, r.db[mid.s].content)
    ensures var rendered := Render(deps.remote, templateId);
      var sentAt := SendTime(meta, campaign);
      && (rendered.Failure? ==> r == Fail(rendered.error))
      && (rendered.Success? && !Truthy(sentAt) ==> r == NotSent)
      && (rendered.Success? && Truthy(sentAt) ==>
        var content := ContentOf(deps, DraftOf(meta, campaign, rendered.value), sentAt.value);
        var w := Write(deps, db, mid, cid, meta, campaign, rendered.value, sentAt.value);
        && (w.Failure? ==> r == Fail(w.error))
        && (w.Success? ==> r == Wrote(w.value.0, w.value.1) && r.db[mid.s].content == content.value))
  {
    match Render(deps.remote, templateId)
    case Failure(e) => Fail(e)
    case Success(rendered) =>
      var sentAt := SendTime(meta, campaign);
      if !Truthy(sentAt) then NotSent
      else match Write(deps, db, mid, cid, meta, campaign, rendered, sentAt.value)
        case Failure(e) => Fail(e)
        case Success(w) => Wrote(w.0, w.1)
  }

  /** Folding one step into the state: a write replaces the store and
      counts as added when it created a record and as updated otherwise; a
      missing template and a missing send time each bump their own counter;
      a skip or a swallowed failure changes nothing. */
  function Record(st: State, step: Step): (r: State)
    requires step.Wrote? ==> step.db.Keys >= st.db.Keys
    requires step.Wrote? ==> |step.db| == |st.db| + (if step.kind == Store.Created then 1 else 0)
    requires step.Wrote? ==> (Store.WellKeyed(st.db) ==> Store.WellKeyed(step.db))
    ensures Grows(st, r)
    ensures Settled(r.tally) <= Settled(st.tally) + 1
    ensures step.Wrote? ==> r.db == step.db
    ensures !step.Wrote? ==> r.db == st.db
    ensures step.Wrote? && step.kind == Store.Created ==> r.tally == st.tally.(added := st.tally.added + 1)
    ensures step.Wrote? && step.kind == Store.Updated ==> r.tally == st.tally.(updated := st.tally.updated + 1)
    ensures step.NoTemplate? ==> r.tally == st.tally.(noTemplate := st.tally.noTemplate + 1)
    ensures step.NotSent? ==> r.tally == st.tally.(messagesNotSent := st.tally.messagesNotSent + 1)
    ensures step.Skip? || step.Fail? ==> r == st
  {
    var t := st.tally;
    match step
    case Wrote(db, Created) => State(db, t.(added := t.added + 1))
    case Wrote(db, Updated) => State(db, t.(updated := t.updated + 1))
    case NoTemplate => st.(tally := t.(noTemplate := t.noTemplate + 1))
    case NotSent => st.(tally := t.(messagesNotSent := t.messagesNotSent + 1))
    case _ => st
  }

  /** The campaign-level counters, which handling messages leaves alone. */
  predicate SameCampaignCounts(a: Tally, b: Tally) {
    a.totalCampaigns == b.totalCampaigns && a.eligible == b.eligible
    && a.totalMessages == b.totalMessages && a.campaignsNotSent == b.campaignsNotSent
  }

  /** The inner message loop: every message is handled whatever happened
      to the ones before it, each settles at most once, and only the
      records of the messages' own ids change. */
  function Messages(deps: Deps, campaign: Json, cid: Json, ms: seq<Json>, st: State): (r: State)
    ensures Grows(st, r)
    ensures Settled(r.tally) <= Settled(st.tally) + |ms|
    ensures SameCampaignCounts(st.tally, r.tally)
    ensures r.db.Keys <= st.db.Keys + Ids(ms)
    ensures forall k | k in st.db && k !in Ids(ms) :: r.db[k] == st.db[k]
    decreases |ms|
  {
    if ms == [] then st
    else
      var next := Record(st, MessageStep(deps, campaign, cid, ms[0], st.db));
      IdsSplit(ms);
      Messages(deps, campaign, cid, ms[1..], next)
  }

  /** Handling a list of messages in two parts is handling the first part,
      then the second from where the first left off. */
  lemma {:induction false} MessagesAppend(deps: Deps, campaign: Json, cid: Json, a: seq<Json>, b: seq<Json>, st: State)
    ensures Messages(deps, campaign, cid, a + b, st) == Messages(deps, campaign, cid, b, Messages(deps, campaign, cid, a, st))
    decreases |a|
  {
    if a == [] {
      assert a + b == b;
    } else {
      assert (a + b)[0] == a[0];
      assert (a + b)[1..] == a[1..] + b;
      MessagesAppend(deps, campaign, cid, a[1..], b, Record(st, MessageStep(deps, campaign, cid, a[0], st.db)));
    }
  }

  /** A message whose handling writes is stored: unless a later message of
      the list carries the same id, the loop ends with the record that
      message wrote, and the write is counted, as added when it created the
      record and as updated otherwise. */
  lemma WriteLands(deps: Deps, campaign: Json, cid: Json, before: seq<Json>, m: Json, after: seq<Json>, st: State)
    requires MessageStep(deps, campaign, cid, m, Messages(deps, campaign, cid, before, st).db).Wrote?
    ensures var s := Messages(deps, campaign, cid, before, st);
      var step := MessageStep(deps, campaign, cid, m, s.db);
      var k := StringId(m).value;
      var r := Messages(deps, campaign, cid, before + [m] + after, st);
      && k in r.db
      && (k !in Ids(after) ==> r.db[k] == step.db[k])
      && (step.kind == Store.Created ==> r.tally.added >= s.tally.added + 1)
      && (step.kind == Store.Updated ==> r.tally.updated >= s.tally.updated + 1)
  {
    var s := Messages(deps, campaign, cid, before, st);
    var step := MessageStep(deps, campaign, cid, m, s.db);
    var k := StringId(m).value;
    var next := Record(s, step);
    MessagesAppend(deps, campaign, cid, before, [m] + after, st);
    Seqs.Around(before, m, after);
    var r := Messages(deps, campaign, cid, after, next);
    assert k in next.db;
    assert Grows(next, r);
  }

  /** The walk over one page's campaigns, stopped by the first failure to
      list a campaign's messages. */
  datatype Walk = Walk(state: State, error: Option<string>)

  /** The messages not yet settled, which no walk ever lets go negative. */
  function Slack(t: Tally): int {
    t.totalMessages - Settled(t)
  }

  /** A campaign with a truthy id. */
  predicate HasId(c: Json) {
    Truthy(Get(Some(c), "id"))
  }

  /** A campaign the sync imports: a truthy id and status exactly
      `'Sent'`. */
  predicate Eligible(c: Json) {
    HasId(c) && IsString(Attribute(Some(c), "status"), "Sent")
  }

  /** A campaign counted as not sent: a truthy id and any other status. */
  predicate NotSentCampaign(c: Json) {
    HasId(c) && !IsString(Attribute(Some(c), "status"), "Sent")
  }

  /** How many campaigns of the list satisfy `p`. */
  function Count(cs: seq<Json>, p: Json -> bool): nat {
    if cs == [] then 0 else (if p(cs[0]) then 1 else 0) + Count(cs[1..], p)
  }

  /** The message count the route adds for a campaign: the length of its
      listed messages, for an eligible campaign whose messages list. */
  function MessageCount(remote: KlaviyoClient.Remote, c: Json): nat {
    if !Eligible(c) then 0
    else match FetchCampaignMessages(remote, Get(Some(c), "id").value)
      case Success(ms) => |ms|
      case Failure(_) => 0
  }

  /** The sum of the message counts of a list of campaigns. */
  function MessageTotal(remote: KlaviyoClient.Remote, cs: seq<Json>): nat {
    if cs == [] then 0 else MessageCount(remote, cs[0]) + MessageTotal(remote, cs[1..])
  }

  /** Whether a campaign lets the walk go on: it is not eligible, or its
      messages can be listed. */
  predicate Listable(remote: KlaviyoClient.Remote, c: Json) {
    !Eligible(c) || FetchCampaignMessages(remote, Get(Some(c), "id").value).Success?
  }

  /** The position of the first campaign whose messages cannot be listed,
      or the number of campaigns when there is none. */
  function BrokenIndex(remote: KlaviyoClient.Remote, cs: seq<Json>): (n: nat)
    ensures n <= |cs|
    ensures forall j | 0 <= j < n :: Listable(remote, cs[j])
    ensures n < |cs| ==> !Listable(remote, cs[n])
  {
    if cs == [] || !Listable(remote, cs[0]) then 0
    else
      var n := BrokenIndex(remote, cs[1..]);
      assert forall j | 1 <= j < n + 1 :: cs[j] == cs[1..][j - 1];
      n + 1
  }

  /** The campaign loop. A campaign without a truthy id touches no counter;
      one whose status is not exactly `'Sent'` is counted as not sent;
      every other one is eligible, its message count is added and its
      messages are handled. The walk fails exactly when an eligible
      campaign's messages cannot be listed, with the error of the first
      one (`CampaignsFail`, `CampaignsFirstError`); when it does not fail, the counters grow by
      the numbers of eligible and not-sent campaigns and by their message
      counts (`CampaignCounts`). */
  function Campaigns(deps: Deps, cs: seq<Json>, st: State): (r: Walk)
    ensures Grows(st, r.state)
    ensures r.state.tally.totalCampaigns == st.tally.totalCampaigns
    ensures r.state.tally.eligible + r.state.tally.campaignsNotSent <= st.tally.eligible + st.tally.campaignsNotSent + |cs|
    ensures Slack(r.state.tally) >= Slack(st.tally)
    decreases |cs|
  {
    if cs == [] then Walk(st, None)
    else
      var c := cs[0];
      var cid := Get(Some(c), "id");
      var t := st.tally;
      if !Truthy(cid) then Campaigns(deps, cs[1..], st)
      else if !IsString(Attribute(Some(c), "status"), "Sent") then
        Campaigns(deps, cs[1..], st.(tally := t.(campaignsNotSent := t.campaignsNotSent + 1)))
      else match FetchCampaignMessages(deps.remote, cid.value)
        case Failure(e) => Walk(st.(tally := t.(eligible := t.eligible + 1)), Some(e))
        case Success(ms) =>
          var counted := st.(tally := t.(eligible := t.eligible + 1, totalMessages := t.totalMessages + |ms|));
          Campaigns(deps, cs[1..], Messages(deps, c, cid.value, ms, counted))
  }

  /** The walk over the campaigns after the first, from the state the
      first one leaves. */
  function AfterFirst(deps: Deps, cs: seq<Json>, st: State): (r: State)
    requires cs != [] && Listable(deps.remote, cs[0])
  {
    var c := cs[0];
    var t := st.tally;
    if !HasId(c) then st
    else if !Eligible(c) then st.(tally := t.(campaignsNotSent := t.campaignsNotSent + 1))
    else
      var ms := FetchCampaignMessages(deps.remote, Get(Some(c), "id").value).value;
      Messages(deps, c, Get(Some(c), "id").value, ms, st.(tally := t.(eligible := t.eligible + 1, totalMessages := t.totalMessages + |ms|)))
  }

  /** The walk fails exactly when some eligible campaign's messages cannot
      be listed (`CampaignsFirstError` says with which error). */
  lemma {:induction false} CampaignsFail(deps: Deps, cs: seq<Json>, st: State)
    ensures Campaigns(deps, cs, st).error.None? <==> forall i | 0 <= i < |cs| :: Listable(deps.remote, cs[i])
    decreases |cs|
  {
    if cs != [] {
      CampaignsHead(deps, cs, st);
      if Listable(deps.remote, cs[0]) {
        CampaignsFail(deps, cs[1..], AfterFirst(deps, cs, st));
        assert forall i | 1 <= i < |cs| :: cs[i] == cs[1..][i - 1];
      }
    }
  }

  /** A failed walk fails with the error of the first campaign whose
      messages cannot be listed. */
  lemma {:induction false} CampaignsFirstError(deps: Deps, cs: seq<Json>, st: State)
    ensures var r := Campaigns(deps, cs, st);
      r.error.Some? ==>
        var n := BrokenIndex(deps.remote, cs);
        n < |cs| && r.error.value == FetchCampaignMessages(deps.remote, Get(Some(cs[n]), "id").value).error
    decreases |cs|
  {
    if cs != [] {
      CampaignsHead(deps, cs, st);
      if Listable(deps.remote, cs[0]) {
        CampaignsFirstError(deps, cs[1..], AfterFirst(deps, cs, st));
        var n := BrokenIndex(deps.remote, cs[1..]);
        assert BrokenIndex(deps.remote, cs) == n + 1;
        assert n < |cs| - 1 ==> cs[n + 1] == cs[1..][n];
      }
    }
  }

  /** The walk either fails on its first campaign or goes on with the rest
      from the state that campaign leaves. */
  lemma CampaignsHead(deps: Deps, cs: seq<Json>, st: State)
    requires cs != []
    ensures Listable(deps.remote, cs[0]) ==> Campaigns(deps, cs, st) == Campaigns(deps, cs[1..], AfterFirst(deps, cs, st))
    ensures !Listable(deps.remote, cs[0]) ==>
      Campaigns(deps, cs, st).error == Some(FetchCampaignMessages(deps.remote, Get(Some(cs[0]), "id").value).error)
  {
  }

  /** A walk that does not fail adds to `eligible` the number of eligible
      campaigns, to `campaignsNotSent` the number of campaigns with an id
      and another status, and to `totalMessages` the message counts of the
      eligible ones. */
  lemma {:induction false} CampaignCounts(deps: Deps, cs: seq<Json>, st: State)
    ensures var r := Campaigns(deps, cs, st);
      r.error.None? ==>
        && r.state.tally.eligible == st.tally.eligible + Count(cs, Eligible)
        && r.state.tally.campaignsNotSent == st.tally.campaignsNotSent + Count(cs, NotSentCampaign)
        && r.state.tally.totalMessages == st.tally.totalMessages + MessageTotal(deps.remote, cs)
    decreases |cs|
  {
    if cs != [] && Listable(deps.remote, cs[0]) {
      CampaignsHead(deps, cs, st);
      CampaignCounts(deps, cs[1..], AfterFirst(deps, cs, st));
    }
  }

  /** How the page loop ends: all pages done, an error that escaped to the
      outer catch, or still going when the fuel (a bound on the number of
      pages) ran out. */
  datatype Outcome = Finished(state: State) | Aborted(error: string, state: State) | Stalled(state: State)

  /** What one pass of the loop body decides: stop with an outcome, or go
      on with the next cursor from the state the page leaves. */
  datatype Turn = Stop(outcome: Outcome) | Continue(cursor: Option<string>, state: State)

  function TurnState(t: Turn): State {
    match t
    case Stop(o) => o.state
    case Continue(_, s) => s
  }

  /** One pass of the loop body: list a page, count its campaigns, walk
      them, and read the next cursor. A failed listing, a failed walk or a
      next link that does not parse stops with that error; an empty next
      cursor finishes after this page; otherwise the loop goes on with the
      next cursor. */
  function PageTurn(deps: Deps, cursor: Option<string>, st: State): (r: Turn)
    requires Consistent(st.tally)
    ensures Grows(st, TurnState(r)) && Consistent(TurnState(r).tally)
    ensures var resp := KlaviyoClient.Get(deps.remote, PageUrl(cursor));
      && (resp.Failure? ==> r == Stop(Aborted(resp.error, st)))
      && (resp.Success? ==> r == PageListed(deps, resp.value, st))
  {
    match KlaviyoClient.Get(deps.remote, PageUrl(cursor))
    case Failure(e) => Stop(Aborted(e, st))
    case Success(resp) => PageListed(deps, resp, st)
  }

  /** A pass over a page the listing call returned: its campaigns are
      counted and walked, then its next link decides whether to go on. */
  function PageListed(deps: Deps, resp: Json, st: State): (r: Turn)
    requires Consistent(st.tally)
    ensures Grows(st, TurnState(r)) && Consistent(TurnState(r).tally)
    ensures var cs := ArrayOrEmpty(Get(Some(resp), "data"));
      var w := Campaigns(deps, cs, st.(tally := st.tally.(totalCampaigns := st.tally.totalCampaigns + |cs|)));
      var next := NextCursor(deps, OrNull(Get(Get(Some(resp), "links"), "next")));
      && (w.error.Some? ==> r == Stop(Aborted(w.error.value, w.state)))
      && (w.error.None? && next.Failure? ==> r == Stop(Aborted(next.error, w.state)))
      && (w.error.None? && next.Success? && !HasCursor(next.value) ==> r == Stop(Finished(w.state)))
      && (w.error.None? && next.Success? && HasCursor(next.value) ==> r == Continue(next.value, w.state))
      && (r.Continue? || r.outcome.Finished? ==> w.error.None? && TurnState(r) == w.state)
  {
    var cs := ArrayOrEmpty(Get(Some(resp), "data"));
    var w := Campaigns(deps, cs, st.(tally := st.tally.(totalCampaigns := st.tally.totalCampaigns + |cs|)));
    if w.error.Some? then Stop(Aborted(w.error.value, w.state))
    else match NextCursor(deps, OrNull(Get(Get(Some(resp), "links"), "next")))
      case Failure(e) => Stop(Aborted(e, w.state))
      case Success(next) =>
        if HasCursor(next) then Continue(next, w.state) else Stop(Finished(w.state))
  }

  /** The `do … while (cursor)` loop: one pass after another while the
      fuel lasts, until a pass stops (`PagesContinue` for a pass that goes
      on). The counters stay consistent throughout. */
  function Pages(deps: Deps, cursor: Option<string>, fuel: nat, st: State): (r: Outcome)
    requires Consistent(st.tally)
    ensures Grows(st, r.state)
    ensures Consistent(r.state.tally)
    ensures fuel == 0 ==> r == Stalled(st)
    ensures fuel > 0 && PageTurn(deps, cursor, st).Stop? ==> r == PageTurn(deps, cursor, st).outcome
    ensures r.Finished? ==> Counted(st.tally, r.state.tally, deps.remote, Visited(deps, cursor, fuel))
    decreases fuel
  {
    if fuel == 0 then Stalled(st)
    else
      TurnCounts(deps, cursor, fuel, st);
      TurnVisits(deps, cursor, fuel, st);
      match PageTurn(deps, cursor, st)
      case Stop(o) => o
      case Continue(next, s) =>
        var r := Pages(deps, next, fuel - 1, s);
        var page := ArrayOrEmpty(Get(Some(KlaviyoClient.Get(deps.remote, PageUrl(cursor)).value), "data"));
        var rest := Visited(deps, next, fuel - 1);
        CountsCompose(st.tally, s.tally, r.state.tally, deps.remote, page, rest);
        r
  }

  /** A pass that goes on is followed by the loop from the next cursor and
      the state the pass left. */
  lemma PagesContinue(deps: Deps, cursor: Option<string>, fuel: nat, st: State)
    requires Consistent(st.tally) && fuel > 0
    requires PageTurn(deps, cursor, st).Continue?
    ensures var t := PageTurn(deps, cursor, st);
      Pages(deps, cursor, fuel, st) == Pages(deps, t.cursor, fuel - 1, t.state)
  {
  }

  /** The campaigns of the pages the loop lists, found by following the
      next links alone: the `data` of each page, until a listing fails, a
      next link does not parse or is empty, or the fuel runs out. */
  function Visited(deps: Deps, cursor: Option<string>, fuel: nat): seq<Json>
    decreases fuel
  {
    if fuel == 0 then []
    else match KlaviyoClient.Get(deps.remote, PageUrl(cursor))
      case Failure(_) => []
      case Success(resp) =>
        var cs := ArrayOrEmpty(Get(Some(resp), "data"));
        match NextCursor(deps, OrNull(Get(Get(Some(resp), "links"), "next")))
        case Success(next) => if HasCursor(next) then cs + Visited(deps, next, fuel - 1) else cs
        case Failure(_) => cs
  }

  lemma {:induction false} MessageTotalAppend(remote: KlaviyoClient.Remote, a: seq<Json>, b: seq<Json>)
    ensures MessageTotal(remote, a + b) == MessageTotal(remote, a) + MessageTotal(remote, b)
    decreases |a|
  {
    if a == [] {
      assert a + b == b;
    } else {
      assert (a + b)[0] == a[0] && (a + b)[1..] == a[1..] + b;
      MessageTotalAppend(remote, a[1..], b);
    }
  }

  /** From `a` to `b` the campaign counters grew by the campaigns `cs`:
      all of them, the eligible ones, the ones with an id and another
      status, and the message counts of the eligible ones. */
  predicate Counted(a: Tally, b: Tally, remote: KlaviyoClient.Remote, cs: seq<Json>) {
    && b.totalCampaigns == a.totalCampaigns + |cs|
    && b.eligible == a.eligible + Count(cs, Eligible)
    && b.campaignsNotSent == a.campaignsNotSent + Count(cs, NotSentCampaign)
    && b.totalMessages == a.totalMessages + MessageTotal(remote, cs)
  }

  /** A pass over a listed page that does not fail counts its campaigns. */
  lemma ListedCounts(deps: Deps, resp: Json, st: State)
    requires Consistent(st.tally)
    ensures var t := PageListed(deps, resp, st);
      (t.Continue? || t.outcome.Finished?) ==>
        Counted(st.tally, TurnState(t).tally, deps.remote, ArrayOrEmpty(Get(Some(resp), "data")))
  {
    var page := ArrayOrEmpty(Get(Some(resp), "data"));
    var listed := st.(tally := st.tally.(totalCampaigns := st.tally.totalCampaigns + |page|));
    var w := Campaigns(deps, page, listed);
    var t := PageListed(deps, resp, st);
    if t.Continue? || t.outcome.Finished? {
      assert w.error.None? && TurnState(t) == w.state;
      CampaignCounts(deps, page, listed);
      assert Counted(st.tally, w.state.tally, deps.remote, page);
    }
  }

  /** A pass that does not fail listed its page and counted its campaigns. */
  lemma TurnCounts(deps: Deps, cursor: Option<string>, fuel: nat, st: State)
    requires Consistent(st.tally) && fuel > 0
    ensures var t := PageTurn(deps, cursor, st);
      var resp := KlaviyoClient.Get(deps.remote, PageUrl(cursor));
      (t.Continue? || t.outcome.Finished?) ==>
        resp.Success? && Counted(st.tally, TurnState(t).tally, deps.remote, ArrayOrEmpty(Get(Some(resp.value), "data")))
  {
    var resp := KlaviyoClient.Get(deps.remote, PageUrl(cursor));
    if resp.Success? {
      ListedCounts(deps, resp.value, st);
    }
  }

  /** The pages the loop lists after a pass that does not fail are the
      ones its next link leads to. */
  lemma TurnVisits(deps: Deps, cursor: Option<string>, fuel: nat, st: State)
    requires Consistent(st.tally) && fuel > 0
    ensures var t := PageTurn(deps, cursor, st);
      var resp := KlaviyoClient.Get(deps.remote, PageUrl(cursor));
      (t.Continue? || t.outcome.Finished?) ==>
        var page := ArrayOrEmpty(Get(Some(resp.value), "data"));
        && resp.Success?
        && (t.Continue? ==> Visited(deps, cursor, fuel) == page + Visited(deps, t.cursor, fuel - 1))
        && (t.Stop? ==> Visited(deps, cursor, fuel) == page)
  {
  }

  /** Counting two lists one after the other counts their concatenation. */
  lemma CountsCompose(a: Tally, b: Tally, c: Tally, remote: KlaviyoClient.Remote, page: seq<Json>, rest: seq<Json>)
    requires Counted(a, b, remote, page)
    ensures Counted(b, c, remote, rest) ==> Counted(a, c, remote, page + rest)
  {
    CountAppend(page, rest, Eligible);
    CountAppend(page, rest, NotSentCampaign);
    MessageTotalAppend(remote, page, rest);
  }

  lemma {:induction false} CountAppend(a: seq<Json>, b: seq<Json>, p: Json -> bool)
    ensures Count(a + b, p) == Count(a, p) + Count(b, p)
    decreases |a|
  {
    if a == [] {
      assert a + b == b;
    } else {
      assert (a + b)[0] == a[0] && (a + b)[1..] == a[1..] + b;
      CountAppend(a[1..], b, p);
    }
  }

  /** The seven numbers the route reports, with the two not-sent counts
      added up. */
  datatype Report = Report(
    added: nat,
    updated: nat,
    totalCampaigns: nat,
    eligibleSent: nat,
    totalMessages: nat,
    skippedNotSent: nat,
    skippedNoTemplate: nat)

  function ReportOf(t: Tally): Report {
    Report(t.added, t.updated, t.totalCampaigns, t.eligible, t.totalMessages,
           t.campaignsNotSent + t.messagesNotSent, t.noTemplate)
  }

  /** One `name=value` field of the note followed by the rest of it. */
  function Field(name: string, n: nat, rest: string): string {
    name + Text.NatToString(n) + rest
  }

  /** The SUCCESS note. */
  function Note(r: Report): string {
    Field("added=", r.added,
    Field(", updated=", r.updated,
    Field(", totalCampaigns=", r.totalCampaigns,
    Field(", eligibleSent=", r.eligibleSent,
    Field(", msgs=", r.totalMessages,
    Field(", skippedNotSent=", r.skippedNotSent,
    ", skippedNoTemplate=" + Text.NatToString(r.skippedNoTemplate)))))))
  }

  /** The note can be read back: two reports with the same note are the
      same report, so the log row records exactly the numbers the reply
      carries. */
  lemma NoteInjective(a: Report, b: Report)
    requires Note(a) == Note(b)
    ensures a == b
  {
    var tailA := ", skippedNoTemplate=" + Text.NatToString(a.skippedNoTemplate);
    var tailB := ", skippedNoTemplate=" + Text.NatToString(b.skippedNoTemplate);
    var f6a, f6b := Field(", skippedNotSent=", a.skippedNotSent, tailA), Field(", skippedNotSent=", b.skippedNotSent, tailB);
    var f5a, f5b := Field(", msgs=", a.totalMessages, f6a), Field(", msgs=", b.totalMessages, f6b);
    var f4a, f4b := Field(", eligibleSent=", a.eligibleSent, f5a), Field(", eligibleSent=", b.eligibleSent, f5b);
    var f3a, f3b := Field(", totalCampaigns=", a.totalCampaigns, f4a), Field(", totalCampaigns=", b.totalCampaigns, f4b);
    var f2a, f2b := Field(", updated=", a.updated, f3a), Field(", updated=", b.updated, f3b);
    Text.NumberFieldInjective("added=", a.added, f2a, b.added, f2b);
    Text.NumberFieldInjective(", updated=", a.updated, f3a, b.updated, f3b);
    Text.NumberFieldInjective(", totalCampaigns=", a.totalCampaigns, f4a, b.totalCampaigns, f4b);
    Text.NumberFieldInjective(", eligibleSent=", a.eligibleSent, f5a, b.eligibleSent, f5b);
    Text.NumberFieldInjective(", msgs=", a.totalMessages, f6a, b.totalMessages, f6b);
    Text.NumberFieldInjective(", skippedNotSent=", a.skippedNotSent, tailA, b.skippedNotSent, tailB);
    Text.PrefixCancel(", skippedNoTemplate=", Text.NatToString(a.skippedNoTemplate), Text.NatToString(b.skippedNoTemplate));
    Text.NatToStringInjective(a.skippedNoTemplate, b.skippedNoTemplate);
  }

  /** The reply: 403 before anything else, 200 with the report, 500 with
      the error message, or none while the run is still going. */
  datatype Reply = Forbidden | Synced(report: Report) | SyncFailed(error: string) | NoReply

  /** `POST`. A request that fails the admin check gets a 403 and leaves
      both tables as they were. Otherwise one log row is opened RUNNING and
      closed SUCCESS with the reported numbers in its note, or ERROR with
      the returned error; it stays RUNNING only while the page loop has not
      ended. Records are never removed, on success `added` is the number of
      new ids, and the reported numbers satisfy the counters' bounds. */
  function Run(deps: Deps, fuel: nat, cookie: Option<string>, adminEnv: Option<string>, db: Store.Db)
    : (r: (Reply, Store.Db))
    ensures r.0 == Forbidden <==> !AdminGuard.Admitted(cookie, adminEnv)
    ensures r.0 == Forbidden ==> r.1 == db
    ensures r.0 != Forbidden ==>
      && |r.1.logs| == |db.logs| + 1 && r.1.logs[..|db.logs|] == db.logs
      && var row := r.1.logs[|db.logs|];
      && (r.0.Synced? <==> row.status == Store.SUCCESS)
      && (r.0.SyncFailed? <==> row.status == Store.ERROR)
      && (r.0.NoReply? <==> row.status == Store.RUNNING)
      && (r.0.Synced? ==> row.note == Some(Note(r.0.report)))
      && (r.0.SyncFailed? ==> row.note == Some(r.0.error))
    ensures db.newsletters.Keys <= r.1.newsletters.Keys
    ensures r.0.Synced? ==> |r.1.newsletters| == |db.newsletters| + r.0.report.added
    ensures r.0.Synced? ==>
      && r.0.report.added + r.0.report.updated + r.0.report.skippedNoTemplate <= r.0.report.totalMessages
      && r.0.report.eligibleSent <= r.0.report.totalCampaigns
    ensures Store.WellKeyed(db.newsletters) ==> Store.WellKeyed(r.1.newsletters)
    ensures r.0.Synced? ==>
      var cs := Visited(deps, None, fuel);
      && r.0.report.totalCampaigns == |cs|
      && r.0.report.eligibleSent == Count(cs, Eligible)
      && r.0.report.totalMessages == MessageTotal(deps.remote, cs)
      && r.0.report.skippedNotSent >= Count(cs, NotSentCampaign)
    ensures r.0 != Forbidden ==>
      var o := Pages(deps, None, fuel, State(db.newsletters, Tally(0, 0, 0, 0, 0, 0, 0, 0)));
      && r.1.newsletters == o.state.db
      && (o.Finished? ==> r.0 == Synced(ReportOf(o.state.tally)))
      && (o.Aborted? ==> r.0 == SyncFailed(o.error))
      && (o.Stalled? ==> r.0 == NoReply)
  {
    if !AdminGuard.Admitted(cookie, adminEnv) then (Forbidden, db)
    else
      var (logs, id) := Store.OpenLog(db.logs);
      match Pages(deps, None, fuel, State(db.newsletters, Tally(0, 0, 0, 0, 0, 0, 0, 0)))
      case Finished(st) =>
        (Synced(ReportOf(st.tally)),
         Store.Db(st.db, Store.CloseLog(logs, id, Store.SUCCESS, Note(ReportOf(st.tally)))))
      case Aborted(e, st) =>
        (SyncFailed(e), Store.Db(st.db, Store.CloseLog(logs, id, Store.ERROR, e)))
      case Stalled(st) =>
        (NoReply, Store.Db(st.db, logs))
  }

  /** An admitted run whose first listing fails ends at once: the reply is
      that error, the log row is closed ERROR with it, and no record is
      written. */
  lemma FirstListingFailureFails(deps: Deps, fuel: nat, cookie: Option<string>, adminEnv: Option<string>, db: Store.Db)
    requires AdminGuard.Admitted(cookie, adminEnv) && fuel > 0
    requires KlaviyoClient.Get(deps.remote, PageUrl(None)).Failure?
    ensures var r := Run(deps, fuel, cookie, adminEnv, db);
      && r.0 == SyncFailed(KlaviyoClient.Get(deps.remote, PageUrl(None)).error)
      && r.1.logs[|db.logs|].status == Store.ERROR
      && r.1.newsletters == db.newsletters
  {
  }
}
