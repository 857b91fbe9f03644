/** The session probe of app/api/simple-auth/me/route.ts. It parses the
    `Cookie` header itself: split on `;`, trim each entry, split it on `=`,
    URI-decode every piece, keep the entries of exactly two pieces, and
    build an object from them, a later name overriding an earlier one. A
    piece that does not decode makes the handler throw. The reply says
    whether `emaldo_auth` is `ok`, which email `emaldo_email` holds, and
    whether that email is the admin's. */
module Me {
  import opened Wrappers
  import Text
  import Seqs

  /** `decodeURIComponent`, opaque; `None` when it throws. */
  type Decoder = string -> Option<string>

  /** Applying a step that may throw to every element, in order; the first
      failure fails the whole. */
  function MapAll<A, B>(xs: seq<A>, f: A -> Option<B>): (r: Option<seq<B>>)
    ensures r.None? <==> exists i | 0 <= i < |xs| :: f(xs[i]).None?
    ensures r.Some? ==> |r.value| == |xs| && forall i | 0 <= i < |xs| :: f(xs[i]) == Some(r.value[i])
  {
    if xs == [] then Some([])
    else match f(xs[0])
      case None => None
      case Some(first) =>
        match MapAll(xs[1..], f)
        case None =>
          var i :| 0 <= i < |xs[1..]| && f(xs[1..][i]).None?;
          assert f(xs[i + 1]).None?;
          None
        case Some(rest) =>
          assert forall i | 1 <= i < |xs| :: xs[i] == xs[1..][i - 1];
          Some([first] + rest)
  }

  /** One entry: trimmed, split on `=`, every piece decoded. */
  function Pieces(entry: string, decode: Decoder): Option<seq<string>> {
    MapAll(Text.Split(Text.Trim(entry), '='), decode)
  }

  /** The test `x.length === 2`. */
  function IsPair(l: seq<string>): bool {
    |l| == 2
  }

  /** `.filter(x => x.length === 2)`, each kept entry read as a pair: the
      two-piece entries in their order. */
  function PairsOf(lists: seq<seq<string>>): (r: seq<(string, string)>)
    ensures |r| <= |lists|
    ensures |r| == |Seqs.Filter(lists, IsPair)|
    ensures forall k | 0 <= k < |r| :: Seqs.Filter(lists, IsPair)[k] == [r[k].0, r[k].1]
    ensures forall k | 0 <= k < |r| :: exists i | 0 <= i < |lists| :: lists[i] == [r[k].0, r[k].1]
    ensures forall i | 0 <= i < |lists| :: |lists[i]| == 2 ==> (lists[i][0], lists[i][1]) in r
  {
    var kept := Seqs.Filter(lists, IsPair);
    var r := seq(|kept|, k requires 0 <= k < |kept| => (kept[k][0], kept[k][1]));
    PairsKept(lists, kept, r);
    r
  }

  /** The pairs read off the kept lists come from the lists, and every
      two-piece list gives one. */
  lemma PairsKept(lists: seq<seq<string>>, kept: seq<seq<string>>, r: seq<(string, string)>)
    requires kept == Seqs.Filter(lists, IsPair)
    requires |r| == |kept| && forall k | 0 <= k < |r| :: r[k] == (kept[k][0], kept[k][1])
    ensures forall k | 0 <= k < |r| :: kept[k] == [r[k].0, r[k].1]
    ensures forall k | 0 <= k < |r| :: exists i | 0 <= i < |lists| :: lists[i] == [r[k].0, r[k].1]
    ensures forall i | 0 <= i < |lists| :: |lists[i]| == 2 ==> (lists[i][0], lists[i][1]) in r
  {
    forall k | 0 <= k < |r|
      ensures kept[k] == [r[k].0, r[k].1]
      ensures exists i | 0 <= i < |lists| :: lists[i] == [r[k].0, r[k].1]
    {
      assert IsPair(kept[k]);
      assert kept[k] == [kept[k][0], kept[k][1]];
      Seqs.FilterMembers(lists, IsPair, kept[k]);
    }
    forall i | 0 <= i < |lists| && |lists[i]| == 2
      ensures (lists[i][0], lists[i][1]) in r
    {
      Seqs.FilterMembers(lists, IsPair, lists[i]);
      var k :| 0 <= k < |kept| && kept[k] == lists[i];
      assert r[k] == (lists[i][0], lists[i][1]);
    }
  }

  /** The pairs of a concatenation are the pairs of each part. */
  lemma PairsOfAppend(a: seq<seq<string>>, b: seq<seq<string>>)
    ensures PairsOf(a + b) == PairsOf(a) + PairsOf(b)
  {
    Seqs.FilterAppend(a, b, IsPair);
    var l, m, n := PairsOf(a + b), PairsOf(a), PairsOf(b);
    var fa := Seqs.Filter(a, IsPair);
    forall k | 0 <= k < |l|
      ensures l[k] == (m + n)[k]
    {
      if k < |m| {
        assert Seqs.Filter(a + b, IsPair)[k] == fa[k];
      } else {
        assert Seqs.Filter(a + b, IsPair)[k] == Seqs.Filter(b, IsPair)[k - |m|];
      }
    }
  }

  /** The cookie entries as name-value pairs, or `None` when a piece does
      not decode. */
  function Entries(entries: seq<string>, decode: Decoder): Option<seq<(string, string)>> {
    match MapAll(entries, (e: string) => Pieces(e, decode))
    case None => None
    case Some(lists) => Some(PairsOf(lists))
  }

  /** `Object.fromEntries(pairs)`: the value of a name is the one of its last
      pair. */
  function FromEntries(pairs: seq<(string, string)>): (m: map<string, string>)
    ensures m.Keys == set i | 0 <= i < |pairs| :: pairs[i].0
  {
    if pairs == [] then map[]
    else
      var init := FromEntries(pairs[..|pairs| - 1]);
      var last := pairs[|pairs| - 1];
      assert forall i | 0 <= i < |pairs| - 1 :: pairs[i] == pairs[..|pairs| - 1][i];
      init[last.0 := last.1]
  }

  /** The entries of a concatenation: the second part's names override the
      first part's. */
  lemma {:induction false} FromEntriesAppend(a: seq<(string, string)>, b: seq<(string, string)>)
    ensures FromEntries(a + b) == FromEntries(a) + FromEntries(b)
    decreases |b|
  {
    if b == [] {
      assert a + b == a;
    } else {
      var ab := a + b;
      var init, last := b[..|b| - 1], b[|b| - 1];
      assert ab[..|ab| - 1] == a + init;
      assert ab[|ab| - 1] == last;
      assert FromEntries(ab) == FromEntries(a + init)[last.0 := last.1];
      assert FromEntries(b) == FromEntries(init)[last.0 := last.1];
      FromEntriesAppend(a, init);
      UnionUpdate(FromEntries(a), FromEntries(init), last.0, last.1);
    }
  }

  /** Updating a union updates its right-hand side. */
  lemma UnionUpdate<K, V>(m1: map<K, V>, m2: map<K, V>, k: K, v: V)
    ensures (m1 + m2)[k := v] == m1 + m2[k := v]
  {
  }

  /** The last pair with a name decides its value. */
  lemma {:induction false} FromEntriesLastWins(pairs: seq<(string, string)>, i: nat)
    requires i < |pairs|
    requires forall j | i < j < |pairs| :: pairs[j].0 != pairs[i].0
    ensures FromEntries(pairs)[pairs[i].0] == pairs[i].1
    decreases |pairs|
  {
    if i < |pairs| - 1 {
      var init := pairs[..|pairs| - 1];
      assert forall j | i < j < |init| :: init[j] == pairs[j];
      FromEntriesLastWins(init, i);
    }
  }

  /** The cookie map, or `None` when decoding throws. */
  function CookieMap(header: Option<string>, decode: Decoder): Option<map<string, string>> {
    match Entries(Text.Split(header.GetOr(""), ';'), decode)
    case None => None
    case Some(pairs) => Some(FromEntries(pairs))
  }

  /** The entries of the header that decode, as piece lists. */
  function PieceLists(header: string, decode: Decoder): Option<seq<seq<string>>> {
    MapAll(Text.Split(header, ';'), (e: string) => Pieces(e, decode))
  }

  /** A later pair list with the same name overrides an earlier one:
      the list at position `i` decides the value of its name when no later
      two-piece list carries that name. */
  lemma PairsLastWins(lists: seq<seq<string>>, i: nat, name: string, value: string)
    requires i < |lists| && lists[i] == [name, value]
    requires forall j | i < j < |lists| :: IsPair(lists[j]) ==> lists[j][0] != name
    ensures name in FromEntries(PairsOf(lists))
    ensures FromEntries(PairsOf(lists))[name] == value
  {
    var before, after := lists[..i], lists[i + 1..];
    assert lists == (before + [lists[i]]) + after;
    PairsOfAppend(before + [lists[i]], after);
    PairsOfAppend(before, [lists[i]]);
    assert Seqs.Filter([lists[i]], IsPair) == [lists[i]];
    assert PairsOf([lists[i]]) == [(name, value)];
    var head, tail := PairsOf(before) + [(name, value)], PairsOf(after);
    FromEntriesAppend(head, tail);
    assert FromEntries(head)[name] == value by {
      FromEntriesLastWins(head, |head| - 1);
    }
    NameAbsent(lists, i + 1, name);
  }

  /** A name no two-piece list from position `from` on carries is not among
      their entries. */
  lemma NameAbsent(lists: seq<seq<string>>, from: nat, name: string)
    requires from <= |lists|
    requires forall j | from <= j < |lists| :: IsPair(lists[j]) ==> lists[j][0] != name
    ensures name !in FromEntries(PairsOf(lists[from..]))
  {
    var pairs := PairsOf(lists[from..]);
    forall k | 0 <= k < |pairs|
      ensures pairs[k].0 != name
    {
      var l :| 0 <= l < |lists[from..]| && lists[from..][l] == [pairs[k].0, pairs[k].1];
      assert lists[from + l] == lists[from..][l];
    }
  }

  /** A later cookie of the same name overrides an earlier one: the entry
      at position `i` of the header decides the value of its name when no
      later entry decodes to a pair with that name. */
  lemma CookieLastWins(header: string, decode: Decoder, i: nat, name: string, value: string)
    requires PieceLists(header, decode).Some?
    requires i < |PieceLists(header, decode).value|
    requires PieceLists(header, decode).value[i] == [name, value]
    requires forall j | i < j < |PieceLists(header, decode).value| ::
               IsPair(PieceLists(header, decode).value[j]) ==> PieceLists(header, decode).value[j][0] != name
    ensures CookieMap(Some(header), decode).Some?
    ensures name in CookieMap(Some(header), decode).value
    ensures CookieMap(Some(header), decode).value[name] == value
  {
    PairsLastWins(PieceLists(header, decode).value, i, name, value);
  }

  /** With no `Cookie` header the map is empty: the header reads as `""`,
      whose one entry has one piece, and `decodeURIComponent("")` returns. */
  lemma NoHeaderNoCookies(decode: Decoder)
    requires decode("").Some?
    ensures CookieMap(None, decode) == Some(map[])
  {
    assert Text.Split("", ';') == [""];
    assert Text.Trim("") == "";
    assert Text.Split("", '=') == [""];
    var one: seq<string> := [""];
    assert one[1..] == [];
    assert MapAll(one[1..], decode) == Some([]);
    assert decode(one[0]).Some?;
    assert MapAll(one, decode) == Some([decode("").value] + []);
  }

  datatype Reply = Status(ok: bool, email: string, isAdmin: bool) | ServerError

  /** `GET`, given the `Cookie` header, `ADMIN_EMAIL` and the decoder. */
  function Handle(header: Option<string>, adminEnv: Option<string>, decode: Decoder): (r: Reply)
    ensures r == ServerError <==> CookieMap(header, decode).None?
    ensures r.Status? ==>
      var m := CookieMap(header, decode).value;
      && (r.ok <==> "emaldo_auth" in m && m["emaldo_auth"] == "ok")
      && ("emaldo_email" in m ==> r.email == m["emaldo_email"])
      && ("emaldo_email" !in m ==> r.email == "")
      && (r.isAdmin <==> Text.Lower(r.email) == Text.Lower(adminEnv.GetOr("")))
  {
    match CookieMap(header, decode)
    case None => ServerError
    case Some(m) =>
      var email := if "emaldo_email" in m then m["emaldo_email"] else "";
      Status("emaldo_auth" in m && m["emaldo_auth"] == "ok", email,
             Text.Lower(email) == Text.Lower(adminEnv.GetOr("")))
  }

  /** A request without cookies is not signed in, has no email, and counts
      as the admin exactly when `ADMIN_EMAIL` is unset or empty. */
  lemma NoHeaderReply(adminEnv: Option<string>, decode: Decoder)
    requires decode("").Some?
    ensures Handle(None, adminEnv, decode) == Status(false, "", Text.Lower(adminEnv.GetOr("")) == "")
  {
    NoHeaderNoCookies(decode);
  }

  /** Every value of the map is the value of a pair with its name. */
  lemma ValueFromPair(pairs: seq<(string, string)>, name: string)
    requires name in FromEntries(pairs)
    ensures exists i | 0 <= i < |pairs| :: pairs[i] == (name, FromEntries(pairs)[name])
  {
    var i :| 0 <= i < |pairs| && pairs[i].0 == name;
    var last := LastWith(pairs, name, i);
    FromEntriesLastWins(pairs, last);
    assert pairs[last] == (name, FromEntries(pairs)[name]);
  }

  /** The probe reports a session only when some cookie entry decodes to
      the pair `emaldo_auth=ok`; the `ea_auth` cookie the login sets is not
      one. */
  lemma OkNeedsEmaldoAuth(header: Option<string>, adminEnv: Option<string>, decode: Decoder)
    ensures Handle(header, adminEnv, decode).Status? && Handle(header, adminEnv, decode).ok ==>
      && Entries(Text.Split(header.GetOr(""), ';'), decode).Some?
      && var pairs := Entries(Text.Split(header.GetOr(""), ';'), decode).value;
         exists i | 0 <= i < |pairs| :: pairs[i] == ("emaldo_auth", "ok")
  {
    if Handle(header, adminEnv, decode).Status? && Handle(header, adminEnv, decode).ok {
      var pairs := Entries(Text.Split(header.GetOr(""), ';'), decode).value;
      assert CookieMap(header, decode) == Some(FromEntries(pairs));
      ValueFromPair(pairs, "emaldo_auth");
    }
  }

  /** The position of the last pair named `name`, given one such pair. */
  function LastWith(pairs: seq<(string, string)>, name: string, i: nat): (k: nat)
    requires i < |pairs| && pairs[i].0 == name
    ensures i <= k < |pairs| && pairs[k].0 == name
    ensures forall j | k < j < |pairs| :: pairs[j].0 != name
    decreases |pairs| - i
  {
    if exists j | i < j < |pairs| :: pairs[j].0 == name then
      var j :| i < j < |pairs| && pairs[j].0 == name;
      LastWith(pairs, name, j)
    else i
  }
}
