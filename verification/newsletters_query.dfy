/** The listing of app/api/newsletters/route.ts. The `q` parameter is
    trimmed; when anything is left, a record is listed only when its subject
    or its preview text contains `q`, ignoring case (a null preview text
    contains nothing). The records come newest first by `sentAt`, at most
    200 of them, under `items`. The table is given as a sequence of its
    rows, in the order the database holds them. */
module NewslettersQuery {
  import opened Wrappers
  import Text
  import Seqs
  import Store

  const PageSize: nat := 200

  /** `(searchParams.get('q') || '').trim()` */
  function QueryText(param: Option<string>): string {
    Text.Trim(param.GetOr(""))
  }

  /** `{contains: q, mode: 'insensitive'}` on a nullable column. */
  predicate ContainsInsensitive(column: Option<string>, q: string) {
    column.Some? && Text.Contains(Text.Lower(column.value), Text.Lower(q))
  }

  /** The `where` clause: nothing when `q` is empty, otherwise subject or
      preview text. */
  predicate Matches(n: Store.Newsletter, q: string) {
    q == "" || ContainsInsensitive(Some(n.content.subject), q) || ContainsInsensitive(n.content.previewText, q)
  }

  function SentAt(n: Store.Newsletter): int {
    n.content.sentAt
  }

  /** The matching rows, newest first. */
  function Sorted(table: seq<Store.Newsletter>, q: string): seq<Store.Newsletter> {
    Seqs.SortDesc(Seqs.Filter(table, (n: Store.Newsletter) => Matches(n, q)), SentAt)
  }

  /** A row in the sorted list is a matching row of the table. */
  lemma SortedMember(table: seq<Store.Newsletter>, q: string, i: nat)
    requires i < |Sorted(table, q)|
    ensures Sorted(table, q)[i] in table && Matches(Sorted(table, q)[i], q)
  {
    var p := (n: Store.Newsletter) => Matches(n, q);
    var x := Sorted(table, q)[i];
    assert x in multiset(Sorted(table, q));
    Seqs.FilterMembers(table, p, x);
  }

  /** The page holds rows of the table, none more often than there. */
  lemma PageFromTable(table: seq<Store.Newsletter>, q: string)
    ensures multiset(Seqs.Take(Sorted(table, q), PageSize)) <= multiset(table)
  {
    Seqs.FilterMultiset(table, (n: Store.Newsletter) => Matches(n, q));
    Seqs.TakeMultiset(Sorted(table, q), PageSize);
  }

  /** The reply body `{items}`. */
  datatype Reply = Reply(items: seq<Store.Newsletter>)

  /** `GET`, given the table and the `q` parameter (`None` when absent):
      `findMany({where, orderBy: {sentAt: 'desc'}, take: 200})`. */
  function Handle(table: seq<Store.Newsletter>, param: Option<string>): (r: Reply)
    ensures |r.items| <= PageSize
    ensures Seqs.SortedDesc(r.items, SentAt)
    ensures forall i | 0 <= i < |r.items| :: r.items[i] in table && Matches(r.items[i], QueryText(param))
    ensures multiset(r.items) <= multiset(table)
  {
    var q := QueryText(param);
    var sorted := Sorted(table, q);
    var items := Seqs.Take(sorted, PageSize);
    PageFromTable(table, q);
    forall i | 0 <= i < |items|
      ensures items[i] in table && Matches(items[i], q)
    {
      assert items[i] == sorted[i];
      SortedMember(table, q, i);
    }
    Reply(items)
  }

  /** Nothing newer is left out: a matching row that is not listed means the
      page is full and every listed record is at least as recent. With
      fewer than 200 matches, every match is listed. */
  lemma NothingNewerLeftOut(table: seq<Store.Newsletter>, param: Option<string>, n: Store.Newsletter)
    requires n in table && Matches(n, QueryText(param))
    requires n !in Handle(table, param).items
    ensures |Handle(table, param).items| == PageSize
    ensures forall i | 0 <= i < PageSize :: SentAt(Handle(table, param).items[i]) >= SentAt(n)
  {
    var q := QueryText(param);
    var sorted := Sorted(table, q);
    Seqs.FilterMembers(table, (m: Store.Newsletter) => Matches(m, q), n);
    assert n in multiset(sorted);
    Seqs.TakeKeepsGreatest(sorted, SentAt, PageSize, n);
  }

  /** An empty or blank `q` filters nothing: the newest 200 rows. */
  lemma BlankQueryListsAll(table: seq<Store.Newsletter>, param: Option<string>)
    requires forall k | 0 <= k < |param.GetOr("")| :: Text.IsSpace(param.GetOr("")[k])
    ensures Handle(table, param).items == Seqs.Take(Seqs.SortDesc(table, SentAt), PageSize)
  {
    Text.TrimEmptyIff(param.GetOr(""));
    Seqs.FilterAll(table, (n: Store.Newsletter) => Matches(n, QueryText(param)));
  }

  /** A record with no preview text is listed for a non-empty `q` only
      through its subject. */
  lemma NullPreviewNeedsSubject(table: seq<Store.Newsletter>, param: Option<string>, i: nat)
    requires i < |Handle(table, param).items|
    requires Handle(table, param).items[i].content.previewText == None
    requires QueryText(param) != ""
    ensures Text.Contains(Text.Lower(Handle(table, param).items[i].content.subject), Text.Lower(QueryText(param)))
  {
  }

  /** The rows enumerate the store: every record once, under its key. */
  predicate Enumerates(table: seq<Store.Newsletter>, db: Store.Newsletters) {
    && (forall i | 0 <= i < |table| :: table[i].messageId in db && db[table[i].messageId] == table[i])
    && (forall k | k in db :: db[k] in table)
  }

  /** Every listed item is the store's record for its message id. */
  lemma ItemsFromStore(table: seq<Store.Newsletter>, db: Store.Newsletters, param: Option<string>)
    requires Enumerates(table, db)
    ensures forall i | 0 <= i < |Handle(table, param).items| ::
      var n := Handle(table, param).items[i];
      n.messageId in db && db[n.messageId] == n
  {
    forall i | 0 <= i < |Handle(table, param).items|
      ensures var n := Handle(table, param).items[i]; n.messageId in db && db[n.messageId] == n
    {
      var n := Handle(table, param).items[i];
      var j :| 0 <= j < |table| && table[j] == n;
    }
  }
}
