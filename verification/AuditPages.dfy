/**
 Keyset pagination of the session audit log (internal/audit/sessions.go): pages ordered by
 (created_at, session_id) descending, each starting below the cursor of the one before,
 over a table that other writers change between pages.
 */
module AuditPages {
  import opened Common

  const PAGE_LIMIT_DEFAULT: int := 50
  const PAGE_LIMIT_MAX: int := 500

  datatype Row = Row(createdAt: string, sessionId: string, account: string, endpoint: string)

  /** A cursor payload, and the sort key of a row. */
  datatype Key = Key(createdAt: string, sessionId: string)

  function KeyOf(r: Row): Key { Key(r.createdAt, r.sessionId) }

  /** Text comparison, character by character. */
  predicate Less(a: string, b: string)
    decreases |a|
  {
    if b == "" then false
    else if a == "" then true
    else if a[0] == b[0] then Less(a[1..], b[1..])
    else a[0] < b[0]
  }

  /** created_at < ? OR (created_at = ? AND session_id < ?) */
  predicate Below(k: Key, c: Key) {
    Less(k.createdAt, c.createdAt) || (k.createdAt == c.createdAt && Less(k.sessionId, c.sessionId))
  }

  datatype Filters = Filters(endpoint: string, from: string, to: string)

  /** The WHERE clause without the cursor; empty filters are off. */
  predicate Matches(r: Row, account: string, f: Filters) {
    && r.account == account
    && (f.endpoint != "" ==> r.endpoint == f.endpoint)
    && (f.from != "" ==> !Less(r.createdAt, f.from))
    && (f.to != "" ==> !Less(f.to, r.createdAt))
  }

  predicate BelowCursor(k: Key, cursor: Option<Key>) { cursor.Some? ==> Below(k, cursor.value) }

  /** The cursor a client sends back, decoded: an empty half makes it unreadable and it is ignored. */
  function Decode(cursor: Option<Key>): Option<Key> {
    if cursor.Some? && (cursor.value.createdAt == "" || cursor.value.sessionId == "") then None else cursor
  }

  function ClampLimit(n: int): (l: int)
    ensures 1 <= l <= PAGE_LIMIT_MAX && (1 <= n <= PAGE_LIMIT_MAX ==> l == n)
    ensures (n <= 0 ==> l == PAGE_LIMIT_DEFAULT) && (n > PAGE_LIMIT_MAX ==> l == PAGE_LIMIT_MAX)
  {
    if n <= 0 then PAGE_LIMIT_DEFAULT else if n > PAGE_LIMIT_MAX then PAGE_LIMIT_MAX else n
  }

  ghost predicate Descending(rows: seq<Row>) {
    forall i, j :: 0 <= i < j < |rows| ==> Below(KeyOf(rows[j]), KeyOf(rows[i]))
  }

  /** What SELECT ... ORDER BY created_at DESC, session_id DESC LIMIT n returns. */
  ghost predicate Selects(db: set<Row>, account: string, f: Filters, cursor: Option<Key>, n: nat, rows: seq<Row>) {
    && |rows| <= n && Descending(rows)
    && (forall i :: 0 <= i < |rows| ==>
          rows[i] in db && Matches(rows[i], account, f) && BelowCursor(KeyOf(rows[i]), cursor))
    && (forall r :: r in db && Matches(r, account, f) && BelowCursor(KeyOf(r), cursor) && r !in rows ==>
          |rows| == n && forall i :: 0 <= i < |rows| ==> Below(KeyOf(r), KeyOf(rows[i])))
  }

  datatype Page = Page(rows: seq<Row>, next: Option<Key>)

  /** One row more than the limit was fetched: it is dropped, and its presence makes a cursor of the last row kept. */
  function Paginate(rows: seq<Row>, limit: nat): (p: Page)
    requires limit > 0
    ensures p.rows <= rows && |p.rows| <= limit
    ensures p.next.None? <==> p.rows == rows
    ensures p.next.Some? ==> p.rows != [] && p.next.value == KeyOf(p.rows[|p.rows| - 1]) && |p.rows| == limit
  {
    if |rows| <= limit then Page(rows, None) else Page(rows[..limit], Some(KeyOf(rows[limit - 1])))
  }

  // ---------------------------------------------------------------- the order

  /** The first place where two texts differ decides; a proper prefix comes first. */
  lemma {:induction false} LessMeans(a: string, b: string)
    ensures Less(a, b) <==>
      exists k :: 0 <= k < |b| && k <= |a| && a[..k] == b[..k] && (k == |a| || a[k] < b[k])
    decreases |a|
  {
    forall k | 0 < k <= |a| && k <= |b| && a[..k] == b[..k] ensures a[0] == b[0] {
      assert a[..k][0] == b[..k][0];
    }
    if a != "" && b != "" && a[0] == b[0] {
      LessMeans(a[1..], b[1..]);
      if k :| 0 <= k < |b| && k <= |a| && a[..k] == b[..k] && (k == |a| || a[k] < b[k]) {
        assert k > 0 && a[1..][..k - 1] == a[..k][1..] && b[1..][..k - 1] == b[..k][1..];
        assert k - 1 == |a[1..]| || a[1..][k - 1] < b[1..][k - 1];
      }
      if Less(a[1..], b[1..]) {
        var j :| 0 <= j < |b[1..]| && j <= |a[1..]| && a[1..][..j] == b[1..][..j] &&
          (j == |a[1..]| || a[1..][j] < b[1..][j]);
        assert a[..j + 1] == [a[0]] + a[1..][..j] && b[..j + 1] == [b[0]] + b[1..][..j];
      }
    } else {
      assert a[..0] == b[..0];
    }
  }

  lemma {:induction false} LessAsymmetric(a: string, b: string)
    requires Less(a, b)
    ensures !Less(b, a) && a != b
    decreases |a|
  {
    if a != "" && a[0] == b[0] {
      LessAsymmetric(a[1..], b[1..]);
    }
  }

  lemma {:induction false} LessTransitive(a: string, b: string, c: string)
    requires Less(a, b) && Less(b, c)
    ensures Less(a, c)
    decreases |a|
  {
    if a != "" && a[0] == b[0] && b[0] == c[0] {
      LessTransitive(a[1..], b[1..], c[1..]);
    }
  }

  lemma BelowTransitive(a: Key, b: Key, c: Key)
    requires Below(a, b) && Below(b, c)
    ensures Below(a, c)
  {
    if Less(a.createdAt, b.createdAt) && Less(b.createdAt, c.createdAt) {
      LessTransitive(a.createdAt, b.createdAt, c.createdAt);
    }
    if Less(a.sessionId, b.sessionId) && Less(b.sessionId, c.sessionId) {
      LessTransitive(a.sessionId, b.sessionId, c.sessionId);
    }
  }

  lemma BelowIrreflexive(a: Key, b: Key)
    requires Below(a, b)
    ensures a != b && !Below(b, a)
  {
    if Less(a.createdAt, b.createdAt) { LessAsymmetric(a.createdAt, b.createdAt); }
    if Less(a.sessionId, b.sessionId) { LessAsymmetric(a.sessionId, b.sessionId); }
  }

  // ---------------------------------------------------------------- one page

  /** The page shows the first rows of what the query selects, and has a cursor exactly when it does not show all. */
  lemma PageSelects(db: set<Row>, account: string, f: Filters, c: Option<Key>, limit: nat, fetched: seq<Row>)
    requires limit > 0 && Selects(db, account, f, c, limit + 1, fetched)
    ensures Selects(db, account, f, c, limit, Paginate(fetched, limit).rows)
    ensures Paginate(fetched, limit).next.None? <==> AllIn(db, account, f, c, Paginate(fetched, limit).rows)
  {
    var rows := Paginate(fetched, limit).rows;
    assert forall i :: 0 <= i < |rows| ==> rows[i] == fetched[i];
    if |fetched| > limit {
      var extra := fetched[limit];
      forall i | 0 <= i < |rows| ensures rows[i] != extra {
        BelowIrreflexive(KeyOf(extra), KeyOf(rows[i]));
      }
      assert extra in db && extra !in rows;
      forall r | r in db && Matches(r, account, f) && BelowCursor(KeyOf(r), c) && r !in rows
        ensures forall i :: 0 <= i < |rows| ==> Below(KeyOf(r), KeyOf(rows[i]))
      {
        assert r in fetched ==> r == extra;
      }
    }
  }

  /** Every row the request is about is shown. */
  ghost predicate AllIn(db: set<Row>, account: string, f: Filters, c: Option<Key>, rows: seq<Row>) {
    forall r :: r in db && Matches(r, account, f) && BelowCursor(KeyOf(r), c) ==> r in rows
  }

  /** List on what the database fetched for the decoded cursor: rows are scanned one by one, then trimmed. */
  method List(ghost db: set<Row>, account: string, f: Filters, cursor: Option<Key>, limit: int, fetched: seq<Row>)
    returns (page: Page)
    requires Selects(db, account, f, Decode(cursor), ClampLimit(limit) + 1, fetched)
    ensures page == Paginate(fetched, ClampLimit(limit))
    ensures Selects(db, account, f, Decode(cursor), ClampLimit(limit), page.rows)
    ensures page.next.None? <==> AllIn(db, account, f, Decode(cursor), page.rows)
  {
    var lim := ClampLimit(limit);
    PageSelects(db, account, f, Decode(cursor), lim, fetched);
    var out: seq<Row> := [];
    var i := 0;
    while i < |fetched|
      invariant 0 <= i <= |fetched| && out == fetched[..i]
    {
      out := out + [fetched[i]];
      i := i + 1;
    }
    assert out == fetched;
    if |out| <= lim {
      return Page(out, None);
    }
    out := out[..lim];
    var last := out[|out| - 1];
    return Page(out, Some(KeyOf(last)));
  }

  // ---------------------------------------------------------------- traversals

  /**
   One request of a traversal: the table as it was then, the limit asked for, what the query
   fetched, the page answered.
   */
  datatype Visit = Visit(db: set<Row>, ask: int, fetched: seq<Row>, page: Page)

  /** Requests that start at `cursor` and follow each page's cursor until a page has none. */
  ghost predicate Traversal(vs: seq<Visit>, account: string, f: Filters, cursor: Option<Key>)
    decreases |vs|
  {
    && vs != []
    && Selects(vs[0].db, account, f, cursor, ClampLimit(vs[0].ask) + 1, vs[0].fetched)
    && vs[0].page == Paginate(vs[0].fetched, ClampLimit(vs[0].ask))
    && (if |vs| == 1 then vs[0].page.next.None?
        else vs[0].page.next.Some? && Traversal(vs[1..], account, f, Decode(vs[0].page.next)))
  }

  function AllRows(vs: seq<Visit>): seq<Row>
    decreases |vs|
  {
    if vs == [] then [] else vs[0].page.rows + AllRows(vs[1..])
  }

  /** Every cursor handed out has a timestamp and an id, and so reads back as itself. */
  ghost predicate ReadBack(vs: seq<Visit>) {
    forall i :: 0 <= i < |vs| && vs[i].page.next.Some? ==>
      vs[i].page.next.value.createdAt != "" && vs[i].page.next.value.sessionId != ""
  }

  /** Every row the traversal is about has a timestamp and an id. */
  ghost predicate Keyed(vs: seq<Visit>, account: string, f: Filters) {
    forall i, r :: 0 <= i < |vs| && r in vs[i].db && Matches(r, account, f) ==> r.createdAt != "" && r.sessionId != ""
  }

  lemma {:induction false} KeyedReadsBack(vs: seq<Visit>, account: string, f: Filters, cursor: Option<Key>)
    requires Traversal(vs, account, f, cursor) && Keyed(vs, account, f)
    ensures ReadBack(vs)
    decreases |vs|
  {
    var v := vs[0];
    if v.page.next.Some? {
      var last := v.page.rows[|v.page.rows| - 1];
      assert last == v.fetched[|v.page.rows| - 1] && last in v.db;
    }
    if |vs| > 1 {
      assert forall i :: 0 <= i < |vs[1..]| ==> vs[1..][i] == vs[i + 1];
      KeyedReadsBack(vs[1..], account, f, Decode(v.page.next));
      assert forall i :: 0 < i < |vs| ==> vs[i] == vs[1..][i - 1];
    }
  }

  lemma {:induction false} DescendsByCursors(vs: seq<Visit>, account: string, f: Filters, cursor: Option<Key>)
    requires Traversal(vs, account, f, cursor) && ReadBack(vs)
    ensures Descending(AllRows(vs))
    ensures forall i :: 0 <= i < |AllRows(vs)| ==> BelowCursor(KeyOf(AllRows(vs)[i]), cursor)
    decreases |vs|
  {
    var rows := vs[0].page.rows;
    assert forall i :: 0 <= i < |rows| ==> rows[i] == vs[0].fetched[i];
    if |vs| == 1 {
      assert vs[1..] == [] && AllRows(vs) == rows;
    } else {
      var c := vs[0].page.next;
      assert forall i :: 0 <= i < |vs[1..]| ==> vs[1..][i] == vs[i + 1];
      DescendsByCursors(vs[1..], account, f, c);
      Joins(rows, AllRows(vs[1..]), c.value, cursor);
    }
  }

  /** A page and rows below its last key join into one descending run. */
  lemma Joins(rows: seq<Row>, rest: seq<Row>, c: Key, cursor: Option<Key>)
    requires rows != [] && c == KeyOf(rows[|rows| - 1]) && Descending(rows) && Descending(rest)
    requires forall i :: 0 <= i < |rest| ==> Below(KeyOf(rest[i]), c)
    requires forall i :: 0 <= i < |rows| ==> BelowCursor(KeyOf(rows[i]), cursor)
    ensures Descending(rows + rest)
    ensures forall i :: 0 <= i < |rows + rest| ==> BelowCursor(KeyOf((rows + rest)[i]), cursor)
  {
    var n := |rows| - 1;
    forall i, j | 0 <= i <= n && 0 <= j < |rest| ensures Below(KeyOf(rest[j]), KeyOf(rows[i])) {
      if i < n { BelowTransitive(KeyOf(rest[j]), c, KeyOf(rows[i])); }
    }
    forall j | 0 <= j < |rest| && cursor.Some? ensures Below(KeyOf(rest[j]), cursor.value) {
      BelowTransitive(KeyOf(rest[j]), c, cursor.value);
    }
  }

  lemma {:induction false} FindsByCursors(vs: seq<Visit>, account: string, f: Filters, cursor: Option<Key>, r: Row)
    requires Traversal(vs, account, f, cursor) && ReadBack(vs)
    requires Matches(r, account, f) && BelowCursor(KeyOf(r), cursor)
    requires forall i :: 0 <= i < |vs| ==> r in vs[i].db
    ensures r in AllRows(vs)
    decreases |vs|
  {
    var v := vs[0];
    var rows := v.page.rows;
    assert r in v.db;
    assert v.page.next.None? ==> rows == v.fetched && |rows| <= ClampLimit(v.ask);
    if r !in rows {
      assert v.page.next.Some?;
      assert Below(KeyOf(r), v.page.next.value) by { Remains(v.fetched, ClampLimit(v.ask), r); }
      assert forall i :: 0 <= i < |vs[1..]| ==> vs[1..][i] == vs[i + 1];
      FindsByCursors(vs[1..], account, f, v.page.next, r);
    }
  }

  /** A row the trimmed page does not show lies below the page's last row. */
  lemma Remains(fetched: seq<Row>, limit: nat, r: Row)
    requires 0 < limit < |fetched| && Descending(fetched) && r !in fetched[..limit]
    requires r !in fetched ==> forall i :: 0 <= i < |fetched| ==> Below(KeyOf(r), KeyOf(fetched[i]))
    ensures Below(KeyOf(r), KeyOf(fetched[limit - 1]))
  {
    assert forall i :: 0 <= i < limit ==> fetched[..limit][i] == fetched[i];
    if r in fetched {
      var i :| 0 <= i < |fetched| && fetched[i] == r;
    }
  }

  lemma OnceByCursors(vs: seq<Visit>, account: string, f: Filters)
    requires Traversal(vs, account, f, None) && ReadBack(vs)
    ensures ShowsAllOnce(vs, account, f)
  {
    DescendsByCursors(vs, account, f, None);
    forall r | r in AllRows(vs) ensures AskedFor(r, account, f.endpoint, f.from, f.to) {
      AllMatch(vs, account, f, None, r);
      MatchesAsked(r, account, f);
    }
    forall r | AskedFor(r, account, f.endpoint, f.from, f.to) && (forall i :: 0 <= i < |vs| ==> r in vs[i].db)
      ensures r in AllRows(vs)
    {
      MatchesAsked(r, account, f);
      FindsByCursors(vs, account, f, None, r);
    }
    forall i, j | 0 <= i < j < |AllRows(vs)| ensures AllRows(vs)[i] != AllRows(vs)[j] {
      BelowIrreflexive(KeyOf(AllRows(vs)[j]), KeyOf(AllRows(vs)[i]));
    }
  }

  // ---------------------------------------------------------------- theorems

  /** Everything a traversal returns lies below its starting cursor, in strictly descending order. */
  lemma TraversalDescends(vs: seq<Visit>, account: string, f: Filters, cursor: Option<Key>)
    requires Traversal(vs, account, f, cursor) && Keyed(vs, account, f)
    ensures Descending(AllRows(vs))
    ensures forall i :: 0 <= i < |AllRows(vs)| ==> BelowCursor(KeyOf(AllRows(vs)[i]), cursor)
  {
    KeyedReadsBack(vs, account, f, cursor);
    DescendsByCursors(vs, account, f, cursor);
  }

  /** A row that matches, lies below the cursor and is there at every request is returned. */
  lemma TraversalFinds(vs: seq<Visit>, account: string, f: Filters, cursor: Option<Key>, r: Row)
    requires Traversal(vs, account, f, cursor) && Keyed(vs, account, f)
    requires Matches(r, account, f) && BelowCursor(KeyOf(r), cursor)
    requires forall i :: 0 <= i < |vs| ==> r in vs[i].db
    ensures r in AllRows(vs)
  {
    KeyedReadsBack(vs, account, f, cursor);
    FindsByCursors(vs, account, f, cursor, r);
  }

  /** The account's own row, at the endpoint and in the time range asked for; an empty filter asks for nothing. */
  ghost predicate AskedFor(r: Row, account: string, endpoint: string, from: string, to: string) {
    && r.account == account
    && (endpoint == "" || r.endpoint == endpoint)
    && (from == "" || from == r.createdAt || Less(from, r.createdAt))
    && (to == "" || r.createdAt == to || Less(r.createdAt, to))
  }

  lemma {:induction false} MatchesAsked(r: Row, account: string, f: Filters)
    ensures Matches(r, account, f) <==> AskedFor(r, account, f.endpoint, f.from, f.to)
  {
    LessTotal(f.from, r.createdAt);
    LessTotal(r.createdAt, f.to);
  }

  /** Of two texts exactly one is less, or they are the same. */
  lemma {:induction false} LessTotal(a: string, b: string)
    ensures !Less(b, a) <==> a == b || Less(a, b)
    decreases |a|
  {
    if a != "" && b != "" && a[0] == b[0] {
      LessTotal(a[1..], b[1..]);
      assert a == [a[0]] + a[1..] && b == [b[0]] + b[1..];
    }
  }

  /**
   In strictly descending order, no row twice, no row that was not asked for, and every row
   asked for that was there throughout.
   */
  ghost predicate ShowsAllOnce(vs: seq<Visit>, account: string, f: Filters) {
    && Descending(AllRows(vs))
    && (forall r :: r in AllRows(vs) ==> AskedFor(r, account, f.endpoint, f.from, f.to))
    && (forall r :: AskedFor(r, account, f.endpoint, f.from, f.to) && (forall i :: 0 <= i < |vs| ==> r in vs[i].db) ==>
          r in AllRows(vs))
    && (forall i, j :: 0 <= i < j < |AllRows(vs)| ==> AllRows(vs)[i] != AllRows(vs)[j])
  }

  /** Nothing is shown that does not match. */
  lemma {:induction false} AllMatch(vs: seq<Visit>, account: string, f: Filters, cursor: Option<Key>, r: Row)
    requires Traversal(vs, account, f, cursor) && r in AllRows(vs)
    ensures Matches(r, account, f)
    decreases |vs|
  {
    if r in vs[0].page.rows {
      var i :| 0 <= i < |vs[0].page.rows| && vs[0].page.rows[i] == r;
      assert r == vs[0].fetched[i];
    } else {
      assert r in AllRows(vs[1..]) && |vs| > 1;
      AllMatch(vs[1..], account, f, Decode(vs[0].page.next), r);
    }
  }

  /**
   The law of the audit log: whatever is inserted and deleted between the pages, following
   the cursors from the start to the end, with any limits, returns every matching row that
   was there throughout exactly once, in strictly descending (created_at, session_id) order.
   */
  lemma EveryRowOnce(vs: seq<Visit>, account: string, f: Filters)
    requires Traversal(vs, account, f, None) && Keyed(vs, account, f)
    ensures ShowsAllOnce(vs, account, f)
  {
    KeyedReadsBack(vs, account, f, None);
    OnceByCursors(vs, account, f);
  }

  // ---------------------------------------------------------------- unreadable cursors

  /** The query has one answer: two selections from one table agree row by row. */
  lemma {:induction false} SelectsAgree(db: set<Row>, account: string, f: Filters, c: Option<Key>, n: nat,
                                        a: seq<Row>, b: seq<Row>, k: nat)
    requires Selects(db, account, f, c, n, a) && Selects(db, account, f, c, n, b)
    requires k <= |a| && k <= |b|
    ensures a[..k] == b[..k]
  {
    if k > 0 {
      SelectsAgree(db, account, f, c, n, a, b, k - 1);
      if a[k - 1] != b[k - 1] {
        NextIsBelow(db, account, f, c, n, a, b, k - 1);
        NextIsBelow(db, account, f, c, n, b, a, k - 1);
        BelowIrreflexive(KeyOf(a[k - 1]), KeyOf(b[k - 1]));
        assert false;
      }
      assert a[..k] == a[..k - 1] + [a[k - 1]] && b[..k] == b[..k - 1] + [b[k - 1]];
    }
  }

  lemma NextIsBelow(db: set<Row>, account: string, f: Filters, c: Option<Key>, n: nat, a: seq<Row>, b: seq<Row>, k: nat)
    requires Selects(db, account, f, c, n, a) && Selects(db, account, f, c, n, b)
    requires k < |a| && k < |b| && a[..k] == b[..k] && a[k] != b[k]
    ensures Below(KeyOf(a[k]), KeyOf(b[k]))
  {
    assert forall i :: 0 <= i < k ==> a[i] == a[..k][i] && b[i] == b[..k][i];
    if a[k] in b {
      var j :| 0 <= j < |b| && b[j] == a[k];
      if j < k {
        BelowIrreflexive(KeyOf(a[k]), KeyOf(a[j]));
      }
    }
  }

  lemma SelectsOnce(db: set<Row>, account: string, f: Filters, c: Option<Key>, n: nat, a: seq<Row>, b: seq<Row>)
    requires Selects(db, account, f, c, n, a) && Selects(db, account, f, c, n, b) && |a| <= |b|
    ensures a == b
  {
    SelectsAgree(db, account, f, c, n, a, b, |a|);
    assert a[..|a|] == a;
    if |a| < |b| {
      var r := b[|a|];
      if r in a {
        var i :| 0 <= i < |a| && a[i] == r;
        assert a[i] == b[..|a|][i] == b[i];
        BelowIrreflexive(KeyOf(r), KeyOf(b[i]));
      }
    }
  }

  /** Nobody writes, and the reader asks for the same limit every time. */
  ghost predicate Unchanged(vs: seq<Visit>, db: set<Row>, ask: int) {
    forall i :: 0 <= i < |vs| ==> vs[i].db == db && vs[i].ask == ask
  }

  /** Two requests for the same on one table are answered the same. */
  lemma {:induction false} VisitsAgree(v: Visit, w: Visit, db: set<Row>, ask: int,
                                       account: string, f: Filters, c: Option<Key>)
    requires v.db == db && w.db == db && v.ask == ask && w.ask == ask
    requires Selects(db, account, f, c, ClampLimit(ask) + 1, v.fetched)
    requires v.page == Paginate(v.fetched, ClampLimit(ask))
    requires Selects(db, account, f, c, ClampLimit(ask) + 1, w.fetched)
    requires w.page == Paginate(w.fetched, ClampLimit(ask))
    ensures v == w
  {
    if |v.fetched| <= |w.fetched| {
      SelectsOnce(db, account, f, c, ClampLimit(ask) + 1, v.fetched, w.fetched);
    } else {
      SelectsOnce(db, account, f, c, ClampLimit(ask) + 1, w.fetched, v.fetched);
    }
  }

  /** Two complete traversals of one table from one cursor are the same. */
  lemma {:induction false} TraversalsAgree(vs: seq<Visit>, ws: seq<Visit>, db: set<Row>, ask: int,
                                           account: string, f: Filters, cursor: Option<Key>)
    requires Traversal(vs, account, f, cursor) && Traversal(ws, account, f, cursor)
    requires Unchanged(vs, db, ask) && Unchanged(ws, db, ask)
    ensures vs == ws
    decreases |vs|
  {
    VisitsAgree(vs[0], ws[0], db, ask, account, f, cursor);
    if |vs| > 1 {
      TraversalsAgree(vs[1..], ws[1..], db, ask, account, f, Decode(vs[0].page.next));
    }
    assert vs == [vs[0]] + vs[1..] && ws == [ws[0]] + ws[1..];
  }

  lemma {:induction false} TraversalTail(vs: seq<Visit>, account: string, f: Filters, cursor: Option<Key>, i: nat)
    requires i + 1 < |vs| && Traversal(vs, account, f, cursor)
    ensures Traversal(vs[i + 1..], account, f, Decode(vs[i].page.next))
    decreases i
  {
    if i > 0 {
      TraversalTail(vs[1..], account, f, Decode(vs[0].page.next), i - 1);
      assert vs[1..][i..] == vs[i + 1..];
    }
  }

  /**
   On a table nobody changes, a traversal by one limit that comes to an end has handed out only cursors
   that read back: one unreadable cursor sends the reader to the first page again, from
   where it meets the same cursor again, for ever.
   */
  lemma EndsOnlyIfReadBack(vs: seq<Visit>, db: set<Row>, ask: int, account: string, f: Filters)
    requires Traversal(vs, account, f, None) && Unchanged(vs, db, ask)
    ensures ReadBack(vs)
  {
    forall i | 0 <= i < |vs| ensures Decode(vs[i].page.next) == vs[i].page.next {
      if i + 1 < |vs| {
        TraversalTail(vs, account, f, None, i);
        if Decode(vs[i].page.next) == None {
          TraversalsAgree(vs, vs[i + 1..], db, ask, account, f, None);
        }
      } else {
        LastHasNoCursor(vs, account, f, None);
      }
    }
  }

  lemma {:induction false} LastHasNoCursor(vs: seq<Visit>, account: string, f: Filters, cursor: Option<Key>)
    requires Traversal(vs, account, f, cursor)
    ensures vs[|vs| - 1].page.next == None
    decreases |vs|
  {
    if |vs| > 1 {
      LastHasNoCursor(vs[1..], account, f, Decode(vs[0].page.next));
    }
  }

  /**
   So on a table nobody changes, rows without an id or a timestamp cost a traversal by one
   limit its end but never its rows: whatever the rows, if it ends it shows all of them once.
   */
  lemma UnchangedShowsAllOnce(vs: seq<Visit>, db: set<Row>, ask: int, account: string, f: Filters)
    requires Traversal(vs, account, f, None) && Unchanged(vs, db, ask)
    ensures ShowsAllOnce(vs, account, f)
  {
    EndsOnlyIfReadBack(vs, db, ask, account, f);
    OnceByCursors(vs, account, f);
  }

  /** A cursor that does not read back, from a row with an empty id at a page's end. */
  lemma EmptyIdRestarts()
    ensures
      var a, b := Row("2", "", "acct", "e"), Row("1", "x", "acct", "e");
      var f := Filters("", "", "");
      && Selects({a, b}, "acct", f, None, 2, [a, b])
      && Paginate([a, b], 1).next == Some(KeyOf(a))
      && Decode(Paginate([a, b], 1).next) == None
  {
    var a, b := Row("2", "", "acct", "e"), Row("1", "x", "acct", "e");
    assert Less("1", "2");
    assert Below(KeyOf(b), KeyOf(a));
  }

  /** Two requests for one row each on a table of two rows. */
  function TwoVisits(): seq<Visit> {
    var a, b := Row("2", "y", "acct", "e"), Row("1", "x", "acct", "e");
    [Visit({a, b}, 1, [a, b], Paginate([a, b], 1)), Visit({a, b}, 1, [b], Paginate([b], 1))]
  }

  /** They are a traversal, and show both rows in order. */
  lemma TwoPages()
    ensures
      var f := Filters("", "", "");
      && Traversal(TwoVisits(), "acct", f, None) && Keyed(TwoVisits(), "acct", f)
      && AllRows(TwoVisits()) == [Row("2", "y", "acct", "e"), Row("1", "x", "acct", "e")]
  {
    var a, b, f := Row("2", "y", "acct", "e"), Row("1", "x", "acct", "e"), Filters("", "", "");
    assert Less("1", "2") && Below(KeyOf(b), KeyOf(a));
    LessAsymmetric("1", "2");
    BelowIrreflexive(KeyOf(b), KeyOf(a));
    var vs := TwoVisits();
    assert !Less("2", "2") && !Less("y", "y");
    assert vs[1..] == [vs[1]] && [vs[1]][1..] == [];
    assert Selects({a, b}, "acct", f, None, 2, [a, b]);
    assert Decode(vs[0].page.next) == Some(KeyOf(a));
    assert Selects({a, b}, "acct", f, Some(KeyOf(a)), 2, [b]);
    assert Traversal([vs[1]], "acct", f, Some(KeyOf(a)));
    assert vs[0].page.rows == [a] && vs[1].page.rows == [b];
    assert AllRows([vs[1]]) == [b] + AllRows([]) && AllRows(vs) == [a] + AllRows([vs[1]]);
  }
}
