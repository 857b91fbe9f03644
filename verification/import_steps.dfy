/** The steps both Klaviyo importers (route.ts and
    app/api/admin/klaviyo/sync/route.ts) perform with identical code: the
    endpoint paths, the send-time lookup, the three-stage template id chain,
    the field fallbacks, and the validated find-then-write on `messageId`.
    The importers differ in the order and bookkeeping around these steps,
    which their own modules model. */
module ImportSteps {
  import opened Wrappers
  import opened Json
  import KlaviyoClient
  import Store
  import Uri

  /** Everything an import run consults besides the database. The URL
      parser (`new URL(next).searchParams.get('page[cursor]')`, which may
      throw), the HTML sanitizer and `new Date(...)` (with `None` for an
      invalid date) are opaque. */
  datatype Deps = Deps(
    remote: KlaviyoClient.Remote,
    cursorOf: string -> Result<Option<string>, string>,
    sanitize: Json -> string,
    parseDate: Json -> Option<int>)

  /** A cursor the URL builders treat as present (`cursor ? … : …`). */
  predicate HasCursor(cursor: Option<string>) {
    cursor.Some? && cursor.value != ""
  }

  /** The listing URL with an optional filter and the page cursor. */
  function ListingUrl(filter: Option<string>, cursor: Option<string>): string {
    var page := if HasCursor(cursor) then "page[cursor]=" + Uri.EncodeURIComponent(cursor.value) else "";
    match filter
    case Some(f) => "/api/campaigns?filter=" + f + (if page == "" then "" else "&" + page)
    case None => "/api/campaigns" + (if page == "" then "" else "?" + page)
  }

  /** The next cursor, when the listing has a truthy next link: the parsed
      `page[cursor]` parameter of `new URL(next)`, which throws when `next`
      does not convert to a string or does not parse. */
  function NextCursor(deps: Deps, next: Json): (r: Result<Option<string>, string>)
    ensures !Truthy(Some(next)) ==> r == Success(None)
    ensures Truthy(Some(next)) && !Stringable(next) ==> r == Failure(ConversionError)
    ensures Truthy(Some(next)) && Stringable(next) ==> r == deps.cursorOf(JsString(next))
  {
    if Truthy(Some(next)) then
      var link :- ToText(next);
      deps.cursorOf(link)
    else Success(None)
  }

  function MessagePath(mid: Json): string {
    "/api/campaign-messages/" + JsString(mid)
  }

  function WithTemplatePath(mid: Json): string {
    MessagePath(mid) + "?include=template"
  }

  function TemplatePath(mid: Json): string {
    MessagePath(mid) + "/template"
  }

  const RenderPath: string := "/api/template-render"

  function CampaignMessagesPath(cid: Json): string {
    "/api/campaigns/" + JsString(cid) + "/campaign-messages"
  }

  /** `kget(`/api/campaigns/${cid}/campaign-messages`)` and its `data`
      when that is an array. The template literal throws before the request
      when the id does not convert to a string. */
  function FetchCampaignMessages(remote: KlaviyoClient.Remote, cid: Json): (r: Result<seq<Json>, string>)
    ensures !Stringable(cid) ==> r == Failure(ConversionError)
    ensures Stringable(cid) ==>
      var resp := KlaviyoClient.Get(remote, CampaignMessagesPath(cid));
      && (resp.Failure? ==> r == Failure(resp.error))
      && (resp.Success? ==> r == Success(ArrayOrEmpty(Get(Some(resp.value), "data"))))
  {
    if !Stringable(cid) then Failure(ConversionError)
    else
      var resp :- KlaviyoClient.Get(remote, CampaignMessagesPath(cid));
      Success(ArrayOrEmpty(Get(Some(resp), "data")))
  }

  /** `kget(`/api/campaign-messages/${mid}`)`, which throws first when the
      id does not convert to a string. */
  function FetchMeta(remote: KlaviyoClient.Remote, mid: Json): (r: Result<Json, string>)
    ensures !Stringable(mid) ==> r == Failure(ConversionError)
    ensures Stringable(mid) ==> r == KlaviyoClient.Get(remote, MessagePath(mid))
  {
    if Stringable(mid) then KlaviyoClient.Get(remote, MessagePath(mid)) else Failure(ConversionError)
  }

  /** The message id when it is a string, the only kind of id a write can
      use. */
  function StringId(m: Json): Option<string> {
    match Get(Some(m), "id")
    case Some(JStr(k)) => Some(k)
    case _ => None
  }

  /** The ids a list of messages carries as strings: the only keys a write
      of theirs can touch. */
  function Ids(ms: seq<Json>): set<string> {
    set i | 0 <= i < |ms| && StringId(ms[i]).Some? :: StringId(ms[i]).value
  }

  /** The ids of a non-empty list are the first message's and the rest's. */
  lemma IdsSplit(ms: seq<Json>)
    requires ms != []
    ensures Ids(ms) == (if StringId(ms[0]).Some? then {StringId(ms[0]).value} else {}) + Ids(ms[1..])
  {
    forall k | k in Ids(ms) ensures k in (if StringId(ms[0]).Some? then {StringId(ms[0]).value} else {}) + Ids(ms[1..]) {
      var i :| 0 <= i < |ms| && StringId(ms[i]) == Some(k);
      if i > 0 { assert ms[1..][i - 1] == ms[i]; }
    }
    forall k | k in Ids(ms[1..]) ensures k in Ids(ms) {
      var i :| 0 <= i < |ms[1..]| && StringId(ms[1..][i]) == Some(k);
      assert ms[i + 1] == ms[1..][i];
    }
  }

  /** `x?.attributes?.[key]` */
  function Attribute(x: Option<Json>, key: string): Option<Json> {
    Get(Get(x, "attributes"), key)
  }

  /** `x?.data?.attributes?.[key]` */
  function DataAttribute(x: Json, key: string): Option<Json> {
    Attribute(Get(Some(x), "data"), key)
  }

  /** `meta.data.attributes.definition.content[key]` */
  function ContentField(meta: Json, key: string): Option<Json> {
    Get(Get(DataAttribute(meta, "definition"), "content"), key)
  }

  /** `v ?? null` */
  function OrNull(v: Option<Json>): (r: Json)
    ensures !Nullish(v) ==> r == v.value
    ensures Nullish(v) ==> r == JNull
  {
    if Nullish(v) then JNull else v.value
  }

  /** The message's first send time. */
  function MessageSendTime(meta: Json): Option<Json> {
    Get(At(DataAttribute(meta, "send_times"), 0), "datetime")
  }

  /** `send_times[0].datetime || campaign.send_time || null`: the first
      truthy one of the two, and `null` (falsy) when neither is truthy, so
      an empty string counts as missing. */
  function SendTime(meta: Json, campaign: Json): (r: Option<Json>)
    ensures Truthy(r) <==> Truthy(MessageSendTime(meta)) || Truthy(Attribute(Some(campaign), "send_time"))
    ensures Truthy(MessageSendTime(meta)) ==> r == MessageSendTime(meta)
    ensures !Truthy(MessageSendTime(meta)) && Truthy(Attribute(Some(campaign), "send_time")) ==>
      r == Attribute(Some(campaign), "send_time")
    ensures r != None
  {
    Or(Or(MessageSendTime(meta), Attribute(Some(campaign), "send_time")), Some(JNull))
  }

  /** First stage: `data.relationships.template.data.id`. */
  function RelationshipTemplateId(withTemplate: Json): Option<Json> {
    Get(Get(Get(Get(Get(Some(withTemplate), "data"), "relationships"), "template"), "data"), "id")
  }

  /** Second stage: the id of the first `included` entry of type
      `'template'`, when `included` is an array. */
  function IncludedTemplateId(withTemplate: Json): Option<Json> {
    match Get(Some(withTemplate), "included")
    case Some(JArr(items)) => Get(FindByString(items, "type", "template"), "id")
    case _ => None
  }

  /** Third stage: `data.id` of the dedicated template endpoint; a failing
      call is swallowed and reads as no id. */
  function FallbackTemplateId(remote: KlaviyoClient.Remote, mid: Json): (r: Option<Json>)
    ensures KlaviyoClient.Get(remote, TemplatePath(mid)).Failure? ==> r == None
  {
    match KlaviyoClient.Get(remote, TemplatePath(mid))
    case Success(resp) => Get(Get(Some(resp), "data"), "id")
    case Failure(_) => None
  }

  /** The template id chain: the relationship id if truthy, else the
      included id if truthy, else the fallback endpoint's id if truthy,
      else nothing. The fallback endpoint is consulted only when the first
      two stages give nothing. */
  function ResolveTemplateId(remote: KlaviyoClient.Remote, mid: Json, withTemplate: Json): (r: Option<Json>)
    ensures r == None || Truthy(r)
    ensures Truthy(RelationshipTemplateId(withTemplate)) ==> r == RelationshipTemplateId(withTemplate)
    ensures !Truthy(RelationshipTemplateId(withTemplate)) && Truthy(IncludedTemplateId(withTemplate)) ==>
      r == IncludedTemplateId(withTemplate)
    ensures !Truthy(RelationshipTemplateId(withTemplate)) && !Truthy(IncludedTemplateId(withTemplate)) ==>
      r == (if Truthy(FallbackTemplateId(remote, mid)) then FallbackTemplateId(remote, mid) else None)
  {
    var first := Or(RelationshipTemplateId(withTemplate), IncludedTemplateId(withTemplate));
    if Truthy(first) then first
    else
      var third := FallbackTemplateId(remote, mid);
      if Truthy(third) then third else None
  }

  /** The template lookup: the `?include=template` GET, which throws on
      failure, then the id chain, which reads a missing id as `None`. */
  function FetchTemplateId(remote: KlaviyoClient.Remote, mid: Json): (r: Result<Option<Json>, string>)
    ensures var wt := KlaviyoClient.Get(remote, WithTemplatePath(mid));
      && (wt.Failure? ==> r == Failure(wt.error))
      && (wt.Success? ==> r == Success(ResolveTemplateId(remote, mid, wt.value)))
    ensures r.Success? && r.value.Some? ==> Truthy(r.value)
  {
    var withTemplate :- KlaviyoClient.Get(remote, WithTemplatePath(mid));
    Success(ResolveTemplateId(remote, mid, withTemplate))
  }

  /** The template-render request body: the template id with an empty
      (non-personalised) context. */
  function RenderBody(templateId: Json): Json {
    JObj(map["data" := JObj(map[
      "type" := JStr("template"),
      "id" := templateId,
      "attributes" := JObj(map["context" := JObj(map[])])])])
  }

  /** The values the importer derives before writing, still as JavaScript
      values. */
  datatype Draft = Draft(subject: Json, fromEmail: Json, previewText: Json, htmlRaw: Json, textRaw: Json)

  /** `kpost('/api/template-render', …)` for the template id. */
  function Render(remote: KlaviyoClient.Remote, templateId: Json): Result<Json, string> {
    KlaviyoClient.Post(remote, RenderPath, RenderBody(templateId))
  }

  /** Field fallbacks: subject is the content subject, else the campaign
      name, else `'Newsletter'` (by `||`, so never falsy); html falls back to
      `''` and the other three to `null` (by `??`, so only on a missing or
      null value). */
  function DraftOf(meta: Json, campaign: Json, rendered: Json): (d: Draft)
    ensures Truthy(Some(d.subject))
    ensures Truthy(ContentField(meta, "subject")) ==> Some(d.subject) == ContentField(meta, "subject")
    ensures !Truthy(ContentField(meta, "subject")) && Truthy(Attribute(Some(campaign), "name")) ==>
      Some(d.subject) == Attribute(Some(campaign), "name")
    ensures !Truthy(ContentField(meta, "subject")) && !Truthy(Attribute(Some(campaign), "name")) ==>
      d.subject == JStr("Newsletter")
    ensures d.fromEmail == OrNull(DataAttribute(meta, "from_email"))
    ensures d.previewText == OrNull(ContentField(meta, "preview_text"))
    ensures Nullish(DataAttribute(rendered, "html")) ==> d.htmlRaw == JStr("")
    ensures !Nullish(DataAttribute(rendered, "html")) ==> Some(d.htmlRaw) == DataAttribute(rendered, "html")
    ensures d.textRaw == OrNull(DataAttribute(rendered, "text"))
  {
    var subject := Or(Or(ContentField(meta, "subject"), Attribute(Some(campaign), "name")), Some(JStr("Newsletter")));
    Draft(
      subject.value,
      OrNull(DataAttribute(meta, "from_email")),
      OrNull(ContentField(meta, "preview_text")),
      Coalesce(DataAttribute(rendered, "html"), Some(JStr(""))).value,
      OrNull(DataAttribute(rendered, "text")))
  }

  /** A required text column accepts a JSON string only. */
  function TextColumn(v: Json): (r: Result<string, string>)
    ensures r.Success? <==> v.JStr?
    ensures r.Success? ==> r.value == v.s
  {
    if v.JStr? then Success(v.s) else Failure("Invalid value for a String column")
  }

  /** A nullable text column accepts a JSON string or null. */
  function NullableTextColumn(v: Json): (r: Result<Option<string>, string>)
    ensures r.Success? <==> v.JStr? || v == JNull
    ensures v == JNull ==> r == Success(None)
    ensures v.JStr? ==> r == Success(Some(v.s))
  {
    if v == JNull then Success(None)
    else if v.JStr? then Success(Some(v.s))
    else Failure("Invalid value for a nullable String column")
  }

  /** The six content columns the database accepts from a draft: the html is
      sanitized, the send time must be a valid date, and each text column
      must hold a value of its type. */
  function ContentOf(deps: Deps, d: Draft, sentAtText: Json): (r: Result<Store.Content, string>)
    ensures r.Success? <==>
      && d.subject.JStr?
      && (d.fromEmail.JStr? || d.fromEmail == JNull)
      && (d.previewText.JStr? || d.previewText == JNull)
      && (d.textRaw.JStr? || d.textRaw == JNull)
      && deps.parseDate(sentAtText).Some?
    ensures r.Success? ==>
      && r.value.subject == d.subject.s
      && r.value.html == deps.sanitize(d.htmlRaw)
      && r.value.sentAt == deps.parseDate(sentAtText).value
  {
    var subject :- TextColumn(d.subject);
    var fromEmail :- NullableTextColumn(d.fromEmail);
    var previewText :- NullableTextColumn(d.previewText);
    var text :- NullableTextColumn(d.textRaw);
    match deps.parseDate(sentAtText)
    case None => Failure("Invalid value for argument `sentAt`")
    case Some(sentAt) => Success(Store.Content(subject, fromEmail, previewText, sentAt, deps.sanitize(d.htmlRaw), text))
  }

  /** `findUnique` on `messageId`, then `update` of the content columns or
      `create` with the campaign id and no tags. The message id must be a
      string for the lookup, the campaign id only for a create; a rejected
      value is an error and leaves the table as it was. */
  function Persist(db: Store.Newsletters, mid: Json, cid: Json, content: Result<Store.Content, string>)
    : (r: Result<(Store.Newsletters, Store.WriteKind), string>)
    ensures r.Success? <==> mid.JStr? && content.Success? && (mid.s in db || cid.JStr?)
    ensures r.Success? ==>
      r.value == Store.Upsert(db, mid.s, if mid.s in db then db[mid.s].campaignId else cid.s, content.value)
  {
    var key :- TextColumn(mid);
    if key in db then
      var c :- content;
      Success(Store.Upsert(db, key, db[key].campaignId, c))
    else
      var campaignId :- TextColumn(cid);
      var c :- content;
      Success(Store.Upsert(db, key, campaignId, c))
  }

  /** What a write of `content` under message id `k` leaves in the table:
      the record for `k` holds the content, no other record changes, an
      existing record keeps its campaign id and tags, and a new one takes
      the campaign id and no tags. */
  predicate Lands(db: Store.Newsletters, after: Store.Newsletters, kind: Store.WriteKind, k: string, cid: Json, content: Store.Content) {
    && after.Keys == db.Keys + {k}
    && (kind == Store.Created <==> k !in db)
    && after[k].content == content
    && (forall k' | k' in db && k' != k :: after[k'] == db[k'])
    && (k in db ==> after[k].campaignId == db[k].campaignId && after[k].tags == db[k].tags)
    && (k !in db ==> cid.JStr? && after[k].campaignId == cid.s && after[k].tags == [])
    && |after| == |db| + (if kind == Store.Created then 1 else 0)
    && (Store.WellKeyed(db) ==> Store.WellKeyed(after))
  }

  /** The write stage of a message: the content of its draft persisted on
      its id. */
  function Write(deps: Deps, db: Store.Newsletters, mid: Json, cid: Json, meta: Json, campaign: Json, rendered: Json, sentAt: Json)
    : (r: Result<(Store.Newsletters, Store.WriteKind), string>)
    ensures var content := ContentOf(deps, DraftOf(meta, campaign, rendered), sentAt);
      && (r.Success? <==> mid.JStr? && content.Success? && (mid.s in db || cid.JStr?))
      && (r.Success? ==> Lands(db, r.value.0, r.value.1, mid.s, cid, content.value))
  {
    Persist(db, mid, cid, ContentOf(deps, DraftOf(meta, campaign, rendered), sentAt))
  }
}
