/** The pure parts of the archive page, app/archive/page.tsx: turning the
    listing reply into entries newest first (a conversion that throws
    empties the first load and leaves a reload's entries as they were), the
    search box filter, and the grouping into years and months, both newest
    first. Dates are opaque:
    the page only ever asks a `sentAt` string for its time, its year, its
    month and its locale rendering, and those answers are given. */
module Archive {
  import opened Wrappers
  import opened Json
  import Text
  import Seqs

  /** One card of the page. `previewText` is whatever the reply held, or
      null. */
  datatype Entry = Entry(id: string, subject: string, previewText: Json, sentAt: string)

  /** What `new Date(sentAt)` answers: `getTime()`, `getFullYear()`,
      `getMonth()` and `toLocaleString()`. */
  datatype Dates = Dates(time: string -> int, year: string -> int, month: string -> int, local: string -> string)

  /** The values the normalization makes up, for the entry at each
      position: its `new Date().toISOString()` and its `crypto.randomUUID()`.
      Each element reads the clock again. */
  datatype Made = Made(now: nat -> string, uuid: nat -> string)

  // Normalization

  /** The array the reply carries: the reply itself, else its `items`, else
      its `data`, else nothing. */
  function RawList(d: Json): seq<Json> {
    match d
    case JArr(items) => items
    case _ =>
      match Get(Some(d), "items")
      case Some(JArr(items)) => items
      case _ => ArrayOrEmpty(Get(Some(d), "data"))
  }

  /** The mapping step of `normalizeResponse` for the element at `i`. */
  function NormalizeItem(n: Json, i: nat, gen: Made): (e: Entry)
    ensures Nullish(Get(Some(n), "subject")) ==> e.subject == ""
    ensures Get(Some(n), "subject") == Some(JStr(e.subject)) || Nullish(Get(Some(n), "subject"))
            || e.subject == JsString(Get(Some(n), "subject").value)
    ensures Nullish(Get(Some(n), "previewText")) ==> e.previewText == JNull
    ensures !Nullish(Get(Some(n), "previewText")) ==> Some(e.previewText) == Get(Some(n), "previewText")
    ensures Nullish(Get(Some(n), "id")) && Nullish(Get(Some(n), "messageId")) ==> e.id == gen.uuid(i)
    ensures Nullish(Get(Some(n), "sentAt")) && Nullish(Get(Some(n), "createdAt")) ==> e.sentAt == gen.now(i)
  {
    Entry(
      ValueString(Coalesce(Coalesce(Get(Some(n), "id"), Get(Some(n), "messageId")), Some(JStr(gen.uuid(i))))),
      ValueString(Coalesce(Get(Some(n), "subject"), Some(JStr("")))),
      Coalesce(Get(Some(n), "previewText"), Some(JNull)).value,
      ValueString(Coalesce(Coalesce(Get(Some(n), "sentAt"), Get(Some(n), "createdAt")), Some(JStr(gen.now(i))))))
  }

  function TimeOf(dates: Dates): Entry -> int {
    (e: Entry) => dates.time(e.sentAt)
  }

  /** The mapped list, before sorting. */
  function Mapped(d: Json, gen: Made): (r: seq<Entry>)
    ensures |r| == |RawList(d)|
    ensures forall i | 0 <= i < |r| :: r[i] == NormalizeItem(RawList(d)[i], i, gen)
  {
    var raw := RawList(d);
    seq(|raw|, i requires 0 <= i < |raw| => NormalizeItem(raw[i], i, gen))
  }

  /** `normalizeResponse(d)`: every element of the raw list becomes an
      entry, and the entries are sorted newest first. */
  function Normalize(d: Json, dates: Dates, gen: Made): (r: seq<Entry>)
    ensures |r| == |RawList(d)|
    ensures Seqs.SortedDesc(r, TimeOf(dates))
    ensures multiset(r) == multiset(Mapped(d, gen))
  {
    Seqs.SortDesc(Mapped(d, gen), TimeOf(dates))
  }

  /** The sort is `Array.prototype.sort`, which is stable: the entries with
      one time keep the order the reply gave them. */
  lemma NormalizeKeepsTies(d: Json, dates: Dates, gen: Made, t: int)
    ensures Seqs.Filter(Normalize(d, dates, gen), Seqs.KeyIs(TimeOf(dates), t))
         == Seqs.Filter(Mapped(d, gen), Seqs.KeyIs(TimeOf(dates), t))
  {
    Seqs.SortKeepsTies(Mapped(d, gen), TimeOf(dates), t);
  }

  /** Whether the three `String(...)` calls of the mapping step return for
      the element at `i`. */
  predicate ItemStringable(n: Json, i: nat, gen: Made) {
    && ValueStringable(Coalesce(Coalesce(Get(Some(n), "id"), Get(Some(n), "messageId")), Some(JStr(gen.uuid(i)))))
    && ValueStringable(Coalesce(Get(Some(n), "subject"), Some(JStr(""))))
    && ValueStringable(Coalesce(Coalesce(Get(Some(n), "sentAt"), Get(Some(n), "createdAt")), Some(JStr(gen.now(i)))))
  }

  /** `normalizeResponse(d)` as a computation that may throw: the mapping
      step throws, and with it the whole call, as soon as one element's
      `String(...)` does. */
  function NormalizeResponse(d: Json, dates: Dates, gen: Made): (r: Result<seq<Entry>, string>)
    ensures r.Success? <==> forall i | 0 <= i < |RawList(d)| :: ItemStringable(RawList(d)[i], i, gen)
    ensures r.Success? ==> r.value == Normalize(d, dates, gen)
    ensures r.Failure? ==> r.error == ConversionError
  {
    var raw := RawList(d);
    if forall i | 0 <= i < |raw| :: ItemStringable(raw[i], i, gen) then Success(Normalize(d, dates, gen))
    else Failure(ConversionError)
  }

  /** The first load: the listing reply (`Failure` when the fetch or its
      JSON throws) normalized, or no entries when anything throws. */
  function Loaded(reply: Result<Json, string>, dates: Dates, gen: Made): (r: seq<Entry>)
    ensures reply.Failure? ==> r == []
    ensures reply.Success? && NormalizeResponse(reply.value, dates, gen).Failure? ==> r == []
    ensures reply.Success? && NormalizeResponse(reply.value, dates, gen).Success? ==>
      && |r| == |RawList(reply.value)|
      && Seqs.SortedDesc(r, TimeOf(dates))
      && multiset(r) == multiset(Mapped(reply.value, gen))
  {
    match reply
    case Failure(_) => []
    case Success(d) =>
      match NormalizeResponse(d, dates, gen)
      case Failure(_) => []
      case Success(list) => list
  }

  /** The reload after an import: the listing reply normalized; when
      anything throws there is no `catch`, so the entries stay as they
      were. */
  function Reloaded(current: seq<Entry>, reply: Result<Json, string>, dates: Dates, gen: Made): (r: seq<Entry>)
    ensures reply.Failure? ==> r == current
    ensures reply.Success? && NormalizeResponse(reply.value, dates, gen).Failure? ==> r == current
    ensures reply.Success? && NormalizeResponse(reply.value, dates, gen).Success? ==>
      && |r| == |RawList(reply.value)|
      && Seqs.SortedDesc(r, TimeOf(dates))
      && multiset(r) == multiset(Mapped(reply.value, gen))
  {
    match reply
    case Failure(_) => current
    case Success(d) =>
      match NormalizeResponse(d, dates, gen)
      case Failure(_) => current
      case Success(list) => list
  }

  /** One element whose subject is an object with its own `toString` makes
      the first load show no entries at all. */
  lemma ThrowingSubjectEmptiesLoad(d: Json, dates: Dates, gen: Made, k: nat, fields: map<string, Json>)
    requires k < |RawList(d)|
    requires Get(Some(RawList(d)[k]), "subject") == Some(JObj(fields)) && "toString" in fields
    ensures Loaded(Success(d), dates, gen) == []
  {
    assert !ItemStringable(RawList(d)[k], k, gen);
  }

  /** Every entry is the normalization of some element of the raw list. */
  lemma NormalizedFromRaw(d: Json, dates: Dates, gen: Made, k: nat)
    requires k < |Normalize(d, dates, gen)|
    ensures exists i | 0 <= i < |RawList(d)| :: Normalize(d, dates, gen)[k] == NormalizeItem(RawList(d)[i], i, gen)
  {
    var mapped := Mapped(d, gen);
    var e := Normalize(d, dates, gen)[k];
    assert e in multiset(Normalize(d, dates, gen));
    assert e in multiset(mapped);
    var i :| 0 <= i < |mapped| && mapped[i] == e;
  }

  /** A top-level array wins over any `items` or `data` property, and
      `items` wins over `data`. */
  lemma RawListPriority(items: seq<Json>, fields: map<string, Json>)
    ensures RawList(JArr(items)) == items
    ensures "items" in fields && fields["items"].JArr? ==> RawList(JObj(fields)) == fields["items"].items
    ensures ("items" !in fields || !fields["items"].JArr?) && "data" in fields && fields["data"].JArr? ==>
      RawList(JObj(fields)) == fields["data"].items
  {
  }

  /** A reply that is neither an array nor an object holding one yields no
      entries. */
  lemma NoArrayNoEntries(d: Json, dates: Dates, gen: Made)
    requires !d.JArr?
    requires !Get(Some(d), "items").Some? || !Get(Some(d), "items").value.JArr?
    requires !Get(Some(d), "data").Some? || !Get(Some(d), "data").value.JArr?
    ensures Normalize(d, dates, gen) == []
  {
  }

  // Search

  /** `(n.previewText ?? "")` ready for `toLowerCase()`: `None` when the
      value is not a string, where the call throws. */
  function PreviewString(j: Json): Option<string> {
    match j
    case JNull => Some("")
    case JStr(s) => Some(s)
    case _ => None
  }

  /** The filter callback for the lower-cased query `q`, evaluated left to
      right: the subject first, then the preview text (which may throw),
      then the locale date. */
  function Keep(e: Entry, q: string, dates: Dates): Option<bool> {
    var dateStr := Text.Lower(dates.local(e.sentAt));
    if Text.Contains(Text.Lower(e.subject), q) then Some(true)
    else match PreviewString(e.previewText)
      case None => None
      case Some(p) => Some(Text.Contains(Text.Lower(p), q) || Text.Contains(dateStr, q))
  }

  function Kept(q: string, dates: Dates): Entry -> bool {
    (e: Entry) => Keep(e, q, dates) == Some(true)
  }

  /** `query.trim().toLowerCase()` */
  function SearchText(query: string): string {
    Text.Lower(Text.Trim(query))
  }

  /** The `list` memo: the entries as they are for a blank query, otherwise
      the ones the callback keeps, in order; `None` when the callback
      throws on some entry. */
  function Search(list: seq<Entry>, query: string, dates: Dates): (r: Option<seq<Entry>>)
    ensures SearchText(query) == "" ==> r == Some(list)
    ensures r.None? <==> SearchText(query) != "" && exists i | 0 <= i < |list| :: Keep(list[i], SearchText(query), dates).None?
    ensures r.Some? ==> Seqs.Subsequence(r.value, list)
    ensures r.Some? && SearchText(query) != "" ==> forall k | 0 <= k < |r.value| ::
      var e := r.value[k];
      var q := SearchText(query);
      || Text.Contains(Text.Lower(e.subject), q)
      || (&& PreviewString(e.previewText).Some?
          && (|| Text.Contains(Text.Lower(PreviewString(e.previewText).value), q)
              || Text.Contains(Text.Lower(dates.local(e.sentAt)), q)))
  {
    var q := SearchText(query);
    if q == "" then
      assert Seqs.Filter(list, (e: Entry) => true) == list by { Seqs.FilterAll(list, (e: Entry) => true); }
      Seqs.FilterIsSubsequence(list, (e: Entry) => true);
      Some(list)
    else if exists i | 0 <= i < |list| :: Keep(list[i], q, dates).None? then None
    else
      Seqs.FilterIsSubsequence(list, Kept(q, dates));
      Some(Seqs.Filter(list, Kept(q, dates)))
  }

  /** The filter keeps exactly the entries the callback accepts. */
  lemma SearchMembers(list: seq<Entry>, query: string, dates: Dates, e: Entry)
    requires SearchText(query) != "" && Search(list, query, dates).Some?
    ensures e in Search(list, query, dates).value <==> e in list && Keep(e, SearchText(query), dates) == Some(true)
  {
    Seqs.FilterMembers(list, Kept(SearchText(query), dates), e);
  }

  /** A preview text that is neither a string nor null throws only when
      the subject does not already match. */
  lemma SubjectShortCircuits(e: Entry, q: string, dates: Dates)
    requires Text.Contains(Text.Lower(e.subject), q)
    ensures Keep(e, q, dates) == Some(true)
  {
  }

  // Grouping

  function YearOf(dates: Dates, e: Entry): int {
    dates.year(e.sentAt)
  }

  function MonthOf(dates: Dates, e: Entry): int {
    dates.month(e.sentAt)
  }

  /** A JavaScript `Map` with numeric keys: the keys in insertion order and
      the value of each. */
  datatype Buckets<V> = Buckets(keys: seq<int>, values: map<int, V>)

  predicate Valid<V>(b: Buckets<V>) {
    && Seqs.Distinct(b.keys)
    && (forall i | 0 <= i < |b.keys| :: b.keys[i] in b.values)
    && (forall k | k in b.values :: k in b.keys)
  }

  /** `map.set(k, v)`: a new key goes to the end, an existing one keeps its
      place. */
  function Set<V>(b: Buckets<V>, k: int, v: V): (r: Buckets<V>)
    requires Valid(b)
    ensures Valid(r)
    ensures r.values == b.values[k := v]
  {
    if k in b.values then Buckets(b.keys, b.values[k := v])
    else Buckets(b.keys + [k], b.values[k := v])
  }

  /** `Array.from(map.keys()).sort((a, b) => b - a)` */
  function KeysDesc<V>(b: Buckets<V>): seq<int> {
    Seqs.SortDesc(b.keys, (k: int) => k)
  }

  /** The sorted keys are the map's keys, each once, greatest first. */
  lemma KeysDescOrdered<V>(b: Buckets<V>)
    requires Valid(b)
    ensures forall i, j | 0 <= i < j < |KeysDesc(b)| :: KeysDesc(b)[i] > KeysDesc(b)[j]
    ensures forall i | 0 <= i < |KeysDesc(b)| :: KeysDesc(b)[i] in b.values
    ensures forall k | k in b.values :: k in KeysDesc(b)
  {
    var r := KeysDesc(b);
    Seqs.SortDescDistinct(b.keys, (k: int) => k);
    forall i | 0 <= i < |r|
      ensures r[i] in b.values
    {
      assert r[i] in multiset(b.keys);
    }
    forall k | k in b.values
      ensures k in r
    {
      assert k in multiset(b.keys);
    }
    forall i, j | 0 <= i < j < |r|
      ensures r[i] > r[j]
    {
      assert r[i] != r[j];
    }
  }

  /** The bucket of one year and month, as a filter over the list. */
  function InMonth(dates: Dates, year: int, month: int): Entry -> bool {
    (e: Entry) => YearOf(dates, e) == year && MonthOf(dates, e) == month
  }

  type ByMonth = Buckets<seq<Entry>>

  /** What the loop has built after the entries `done`: every year and
      month of them has a non-empty bucket holding exactly its entries, in
      order. */
  predicate Bucketed(b: Buckets<ByMonth>, done: seq<Entry>, dates: Dates) {
    && Valid(b)
    && (forall y | y in b.values :: Valid(b.values[y]))
    && (forall y, m | y in b.values && m in b.values[y].values ::
          b.values[y].values[m] == Seqs.Filter(done, InMonth(dates, y, m)) && b.values[y].values[m] != [])
    && (forall j | 0 <= j < |done| :: YearOf(dates, done[j]) in b.values
          && MonthOf(dates, done[j]) in b.values[YearOf(dates, done[j])].values)
  }

  /** A year and month none of the entries has gets nothing from the
      filter. */
  lemma EmptyBucket(done: seq<Entry>, dates: Dates, y: int, m: int)
    requires forall j | 0 <= j < |done| :: !InMonth(dates, y, m)(done[j])
    ensures Seqs.Filter(done, InMonth(dates, y, m)) == []
  {
    var r := Seqs.Filter(done, InMonth(dates, y, m));
    if r != [] {
      Seqs.FilterMembers(done, InMonth(dates, y, m), r[0]);
    }
  }

  /** One turn of the loop: the entry goes to the end of its bucket. */
  function Add(b: Buckets<ByMonth>, e: Entry, dates: Dates): Buckets<ByMonth>
    requires Valid(b) && forall y | y in b.values :: Valid(b.values[y])
  {
    var y := YearOf(dates, e);
    var m := MonthOf(dates, e);
    var byMonth := if y in b.values then b.values[y] else Buckets([], map[]);
    var items := if m in byMonth.values then byMonth.values[m] else [];
    Set(b, y, Set(byMonth, m, items + [e]))
  }

  /** After the turn, every bucket holds exactly its entries of
      `done + [e]`. */
  lemma AddFills(b: Buckets<ByMonth>, done: seq<Entry>, e: Entry, dates: Dates, y2: int, m2: int)
    requires Bucketed(b, done, dates)
    requires y2 in Add(b, e, dates).values && m2 in Add(b, e, dates).values[y2].values
    ensures Add(b, e, dates).values[y2].values[m2] == Seqs.Filter(done + [e], InMonth(dates, y2, m2))
    ensures Add(b, e, dates).values[y2].values[m2] != []
  {
    var y := YearOf(dates, e);
    var m := MonthOf(dates, e);
    Seqs.FilterAppend(done, [e], InMonth(dates, y2, m2));
    assert Seqs.Filter([e], InMonth(dates, y2, m2)) == if y2 == y && m2 == m then [e] else [];
    if y2 == y && m2 == m && !(y in b.values && m in b.values[y].values) {
      forall j | 0 <= j < |done|
        ensures !InMonth(dates, y, m)(done[j])
      {
      }
      EmptyBucket(done, dates, y, m);
    }
  }

  /** One turn of the loop keeps the buckets right for the entries seen. */
  lemma AddBucketed(b: Buckets<ByMonth>, done: seq<Entry>, e: Entry, dates: Dates)
    requires Bucketed(b, done, dates)
    ensures Bucketed(Add(b, e, dates), done + [e], dates)
  {
    var after := Add(b, e, dates);
    var next := done + [e];
    forall y2, m2 | y2 in after.values && m2 in after.values[y2].values
      ensures after.values[y2].values[m2] == Seqs.Filter(next, InMonth(dates, y2, m2))
      ensures after.values[y2].values[m2] != []
    {
      AddFills(b, done, e, dates, y2, m2);
    }
    forall j | 0 <= j < |next|
      ensures YearOf(dates, next[j]) in after.values && MonthOf(dates, next[j]) in after.values[YearOf(dates, next[j])].values
    {
      if j < |done| {
        assert next[j] == done[j];
      }
    }
  }

  datatype MonthGroup = MonthGroup(month: int, items: seq<Entry>)

  datatype YearGroup = YearGroup(year: int, months: seq<MonthGroup>)

  /** The keys `ks` paired with their values. */
  function Pairs<V>(ks: seq<int>, values: map<int, V>): (r: seq<(int, V)>)
    requires forall i | 0 <= i < |ks| :: ks[i] in values
    ensures |r| == |ks|
    ensures forall i | 0 <= i < |r| :: r[i].0 == ks[i] && r[i].1 == values[ks[i]]
  {
    if ks == [] then [] else [(ks[0], values[ks[0]])] + Pairs(ks[1..], values)
  }

  /** The map's entries in the order of `KeysDesc`. */
  function EntriesDesc<V>(b: Buckets<V>): seq<(int, V)>
    requires Valid(b)
  {
    KeysDescOrdered(b);
    Pairs(KeysDesc(b), b.values)
  }

  /** The sorted entries are the map's entries, each key once, greatest
      first. */
  lemma EntriesDescOrdered<V>(b: Buckets<V>)
    requires Valid(b)
    ensures var r := EntriesDesc(b);
      && (forall i, j | 0 <= i < j < |r| :: r[i].0 > r[j].0)
      && (forall i | 0 <= i < |r| :: r[i].0 in b.values && r[i].1 == b.values[r[i].0])
  {
    KeysDescOrdered(b);
  }

  /** The position of `k` in `ks`. */
  function PositionIn(ks: seq<int>, k: int): (i: nat)
    requires k in ks
    ensures i < |ks| && ks[i] == k
  {
    if ks[0] == k then 0 else 1 + PositionIn(ks[1..], k)
  }

  /** Where the key `k` of the map sits among the sorted entries. */
  function KeyPosition<V>(b: Buckets<V>, k: int): (i: nat)
    requires Valid(b) && k in b.values
    ensures i < |EntriesDesc(b)| && EntriesDesc(b)[i].0 == k
  {
    KeysDescOrdered(b);
    PositionIn(KeysDesc(b), k)
  }

  function MonthGroups(es: seq<(int, seq<Entry>)>): (r: seq<MonthGroup>)
    ensures |r| == |es|
    ensures forall a | 0 <= a < |r| :: r[a] == MonthGroup(es[a].0, es[a].1)
  {
    if es == [] then [] else [MonthGroup(es[0].0, es[0].1)] + MonthGroups(es[1..])
  }

  /** `months.map(m => ({month: m, items: monthsMap.get(m)}))` */
  function Months(byMonth: ByMonth): seq<MonthGroup>
    requires Valid(byMonth)
  {
    MonthGroups(EntriesDesc(byMonth))
  }

  function YearGroups(es: seq<(int, ByMonth)>): (r: seq<YearGroup>)
    requires forall i | 0 <= i < |es| :: Valid(es[i].1)
    ensures |r| == |es|
    ensures forall i | 0 <= i < |r| :: r[i] == YearGroup(es[i].0, Months(es[i].1))
  {
    if es == [] then [] else [YearGroup(es[0].0, Months(es[0].1))] + YearGroups(es[1..])
  }

  /** `years.map(y => ({year: y, months: ...}))` */
  function Years(b: Buckets<ByMonth>): seq<YearGroup>
    requires Valid(b) && forall y | y in b.values :: Valid(b.values[y])
  {
    EntriesDescOrdered(b);
    YearGroups(EntriesDesc(b))
  }

  /** The buckets of one year, in order, are its months, greatest first,
      each with the entries of that month. */
  lemma MonthsOfYear(b: Buckets<ByMonth>, list: seq<Entry>, dates: Dates, y: int)
    requires Bucketed(b, list, dates) && y in b.values
    ensures var ms := Months(b.values[y]);
      && (forall a, c | 0 <= a < c < |ms| :: ms[a].month > ms[c].month)
      && (forall a | 0 <= a < |ms| ::
            ms[a].items == Seqs.Filter(list, InMonth(dates, y, ms[a].month)) && ms[a].items != [])
  {
    EntriesDescOrdered(b.values[y]);
  }

  /** Each month of a year's buckets has its group at the month's position. */
  lemma MonthPosition(bm: ByMonth, m: int)
    requires Valid(bm) && m in bm.values
    ensures KeyPosition(bm, m) < |Months(bm)| && Months(bm)[KeyPosition(bm, m)].month == m
  {
  }

  /** Year groups built from ordered pairs of a map keep their order and
      their months. */
  lemma YearGroupsOf(es: seq<(int, ByMonth)>, values: map<int, ByMonth>)
    requires forall i | 0 <= i < |es| :: Valid(es[i].1)
    requires forall i, j | 0 <= i < j < |es| :: es[i].0 > es[j].0
    requires forall i | 0 <= i < |es| :: es[i].0 in values && es[i].1 == values[es[i].0]
    ensures var gs := YearGroups(es);
      && (forall i, j | 0 <= i < j < |gs| :: gs[i].year > gs[j].year)
      && (forall i | 0 <= i < |gs| :: gs[i].year == es[i].0 && gs[i].months == Months(es[i].1))
  {
    var gs := YearGroups(es);
    forall i | 0 <= i < |gs|
      ensures gs[i].year == es[i].0 && gs[i].months == Months(es[i].1)
    {
      assert gs[i] == YearGroup(es[i].0, Months(es[i].1));
    }
  }

  /** The year groups of the buckets are ordered, and each carries the
      months of its year. */
  lemma YearsOrdered(b: Buckets<ByMonth>)
    requires Valid(b) && forall y | y in b.values :: Valid(b.values[y])
    ensures var gs := Years(b);
      && (forall i, j | 0 <= i < j < |gs| :: gs[i].year > gs[j].year)
      && (forall i | 0 <= i < |gs| :: gs[i].year in b.values && gs[i].months == Months(b.values[gs[i].year]))
  {
    var es := EntriesDesc(b);
    EntriesDescOrdered(b);
    YearGroupsOf(es, b.values);
    var gs := Years(b);
    assert gs == YearGroups(es);
    forall i | 0 <= i < |gs|
      ensures gs[i].year in b.values && gs[i].months == Months(b.values[gs[i].year])
    {
      assert gs[i].year == es[i].0 && gs[i].months == Months(es[i].1);
    }
  }

  /** Each year of the buckets has its group at the year's position. */
  lemma YearPosition(b: Buckets<ByMonth>, y: int)
    requires Valid(b) && (forall yr | yr in b.values :: Valid(b.values[yr])) && y in b.values
    ensures KeyPosition(b, y) < |Years(b)| && Years(b)[KeyPosition(b, y)].year == y
  {
    YearsOrdered(b);
  }

  /** Years strictly newest first. */
  predicate YearsDesc(groups: seq<YearGroup>) {
    forall i, j | 0 <= i < j < |groups| :: groups[i].year > groups[j].year
  }

  /** Within each year, months strictly newest first, each holding exactly
      the entries of its year and month in list order, none empty. */
  predicate MonthsFilled(groups: seq<YearGroup>, list: seq<Entry>, dates: Dates) {
    forall i | 0 <= i < |groups| ::
      && (forall a, c | 0 <= a < c < |groups[i].months| :: groups[i].months[a].month > groups[i].months[c].month)
      && (forall a | 0 <= a < |groups[i].months| ::
            && groups[i].months[a].items == Seqs.Filter(list, InMonth(dates, groups[i].year, groups[i].months[a].month))
            && groups[i].months[a].items != [])
  }

  /** Some group is the month `month` of the year `year`. */
  predicate HasGroup(groups: seq<YearGroup>, year: int, month: int) {
    exists i, a | 0 <= i < |groups| && 0 <= a < |groups[i].months| ::
      groups[i].year == year && groups[i].months[a].month == month
  }

  /** Every entry's year and month has a group. */
  predicate Covers(groups: seq<YearGroup>, list: seq<Entry>, dates: Dates) {
    forall k | 0 <= k < |list| :: HasGroup(groups, YearOf(dates, list[k]), MonthOf(dates, list[k]))
  }

  /** Finished buckets give groups in order, with the right contents. */
  lemma BucketsFill(b: Buckets<ByMonth>, list: seq<Entry>, dates: Dates)
    requires Bucketed(b, list, dates)
    ensures YearsDesc(Years(b)) && MonthsFilled(Years(b), list, dates)
  {
    var groups := Years(b);
    YearsOrdered(b);
    forall i | 0 <= i < |groups|
      ensures forall a, c | 0 <= a < c < |groups[i].months| :: groups[i].months[a].month > groups[i].months[c].month
      ensures forall a | 0 <= a < |groups[i].months| ::
        && groups[i].months[a].items == Seqs.Filter(list, InMonth(dates, groups[i].year, groups[i].months[a].month))
        && groups[i].months[a].items != []
    {
      MonthsOfYear(b, list, dates, groups[i].year);
    }
  }

  /** Finished buckets give a group for every entry. */
  lemma BucketsCover(b: Buckets<ByMonth>, list: seq<Entry>, dates: Dates)
    requires Bucketed(b, list, dates)
    ensures Covers(Years(b), list, dates)
  {
    var groups := Years(b);
    forall k | 0 <= k < |list|
      ensures HasGroup(groups, YearOf(dates, list[k]), MonthOf(dates, list[k]))
    {
      var y := YearOf(dates, list[k]);
      var m := MonthOf(dates, list[k]);
      YearPosition(b, y);
      YearsOrdered(b);
      var i := KeyPosition(b, y);
      MonthPosition(b.values[y], m);
      var a := KeyPosition(b.values[y], m);
      assert groups[i].months[a].month == m;
    }
  }

  /** The `grouped` memo: years newest first, months newest first within a
      year, each month holding exactly the entries of that year and month
      in list order, no month empty, and every entry's month present. */
  method Group(list: seq<Entry>, dates: Dates) returns (groups: seq<YearGroup>)
    ensures YearsDesc(groups)
    ensures MonthsFilled(groups, list, dates)
    ensures Covers(groups, list, dates)
  {
    var b: Buckets<ByMonth> := Buckets([], map[]);
    for k := 0 to |list|
      invariant Bucketed(b, list[..k], dates)
    {
      AddBucketed(b, list[..k], list[k], dates);
      Seqs.PrefixStep(list, k);
      b := Add(b, list[k], dates);
    }
    assert list[..|list|] == list;
    groups := Years(b);
    BucketsFill(b, list, dates);
    BucketsCover(b, list, dates);
  }

  /** A bucket holds an entry exactly when the entry is in the list with
      that year and month. */
  lemma BucketMembers(list: seq<Entry>, dates: Dates, year: int, month: int, e: Entry)
    ensures e in Seqs.Filter(list, InMonth(dates, year, month)) <==>
      e in list && YearOf(dates, e) == year && MonthOf(dates, e) == month
  {
    Seqs.FilterMembers(list, InMonth(dates, year, month), e);
  }
}
