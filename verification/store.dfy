/** The two tables the importer owns: `newsletter`, unique on `messageId`,
    and the `importLog` audit rows. The database is a value: a map from
    message id to record, and the log as a list whose positions are the row
    ids. */
module Store {
  import opened Wrappers

  /** The six columns every import writes, on create and on update alike. */
  datatype Content = Content(
    subject: string,
    fromEmail: Option<string>,
    previewText: Option<string>,
    sentAt: int,
    html: string,
    text: Option<string>)

  datatype Newsletter = Newsletter(
    messageId: string,
    campaignId: string,
    content: Content,
    tags: seq<string>)

  type Newsletters = map<string, Newsletter>

  /** Every record sits under its own message id. */
  predicate WellKeyed(db: Newsletters) {
    forall k | k in db :: db[k].messageId == k
  }

  datatype WriteKind = Created | Updated

  /** The find-then-update-or-create on `messageId`. An existing record gets
      the six content columns and keeps its campaign id and tags; a new one
      starts with no tags. No other record is touched and nothing is
      removed. */
  function Upsert(db: Newsletters, messageId: string, campaignId: string, content: Content): (r: (Newsletters, WriteKind))
    ensures r.0.Keys == db.Keys + {messageId}
    ensures r.1 == Created <==> messageId !in db
    ensures r.0[messageId].messageId == messageId
    ensures r.0[messageId].content == content
    ensures messageId in db ==>
      && r.0[messageId].campaignId == db[messageId].campaignId
      && r.0[messageId].tags == db[messageId].tags
    ensures messageId !in db ==> r.0[messageId].campaignId == campaignId && r.0[messageId].tags == []
    ensures forall k | k in db && k != messageId :: r.0[k] == db[k]
    ensures WellKeyed(db) ==> WellKeyed(r.0)
    ensures |r.0| == |db| + (if r.1 == Created then 1 else 0)
  {
    if messageId in db then
      assert db[messageId := db[messageId]].Keys == db.Keys;
      var existing := db[messageId];
      (db[messageId := Newsletter(messageId, existing.campaignId, content, existing.tags)], Updated)
    else
      (db[messageId := Newsletter(messageId, campaignId, content, [])], Created)
  }

  /** Writing the same message twice is an update that changes nothing. */
  lemma UpsertIdempotent(db: Newsletters, messageId: string, campaignId: string, content: Content)
    ensures var once := Upsert(db, messageId, campaignId, content).0;
      Upsert(once, messageId, campaignId, content) == (once, Updated)
  {
    var once := Upsert(db, messageId, campaignId, content).0;
    var again := Upsert(once, messageId, campaignId, content).0;
    assert once[messageId] == Newsletter(messageId, once[messageId].campaignId, content, once[messageId].tags);
    assert again == once[messageId := once[messageId]];
    assert once[messageId := once[messageId]] == once;
  }

  datatype LogStatus = RUNNING | SUCCESS | ERROR

  datatype ImportLog = ImportLog(status: LogStatus, note: Option<string>)

  /** `importLog.create({status: 'RUNNING'})`: one new row at the end, whose
      position is its id. */
  function OpenLog(logs: seq<ImportLog>): (r: (seq<ImportLog>, nat))
    ensures |r.0| == |logs| + 1 && r.0[..|logs|] == logs
    ensures r.1 == |logs| && r.0[r.1] == ImportLog(RUNNING, None)
  {
    (logs + [ImportLog(RUNNING, None)], |logs|)
  }

  /** `importLog.update({where: {id}})`: only row `id` changes. */
  function CloseLog(logs: seq<ImportLog>, id: nat, status: LogStatus, note: string): (r: seq<ImportLog>)
    requires id < |logs|
    ensures |r| == |logs| && r[id] == ImportLog(status, Some(note))
    ensures forall i | 0 <= i < |logs| && i != id :: r[i] == logs[i]
  {
    logs[id := ImportLog(status, Some(note))]
  }

  /** The two tables together. */
  datatype Db = Db(newsletters: Newsletters, logs: seq<ImportLog>)
}
