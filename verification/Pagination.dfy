/** Keyset pagination over the catalog in (updated_at, id) order. */
module Pagination {
  import opened Wrappers
  import opened Cursor

  datatype Row = Row(id: int, objectId: string, updatedAt: int)

  /** Where a page ended. */
  datatype Pos = Pos(time: int, id: int)

  type Table = set<Row>

  predicate Less(a: Row, b: Row) {
    a.updatedAt < b.updatedAt || (a.updatedAt == b.updatedAt && a.id < b.id)
  }

  predicate After(r: Row, p: Option<Pos>) {
    p.None? || r.updatedAt > p.value.time || (r.updatedAt == p.value.time && r.id > p.value.id)
  }

  predicate Since(r: Row, since: Option<int>) {
    since.None? || r.updatedAt > since.value
  }

  function Matching(t: Table, since: Option<int>, p: Option<Pos>): set<Row> {
    set r | r in t && Since(r, since) && After(r, p)
  }

  /** Ids are a primary key, and every row has an id and a time. */
  predicate Sound(t: Table) {
    && (forall r :: r in t ==> r.id >= 1 && r.updatedAt != ZERO_TIME)
    && (forall a, b :: a in t && b in t && a.id == b.id ==> a == b)
  }

  predicate Ordered(rows: seq<Row>) {
    forall j, k :: 0 <= j < k < |rows| ==> Less(rows[j], rows[k])
  }

  /** rows lists the set in order, each member once. */
  ghost predicate Lists(rows: seq<Row>, s: set<Row>) {
    Ordered(rows) && forall r :: r in rows <==> r in s
  }

  // ------------------------------------------------ the query

  method LeastRow(s: set<Row>) returns (least: Row)
    requires s != {} && forall a, b :: a in s && b in s && a.id == b.id ==> a == b
    ensures least in s && forall r :: r in s && r != least ==> Less(least, r)
  {
    least :| least in s;
    var todo := s - {least};
    while todo != {}
      invariant todo <= s && least in s && least !in todo
      invariant forall r :: r in s && r !in todo && r != least ==> Less(least, r)
      decreases todo
    {
      var r :| r in todo;
      todo := todo - {r};
      if Less(r, least) {
        least := r;
      }
    }
  }

  function Take(rows: seq<Row>, n: nat): seq<Row> {
    if n < |rows| then rows[..n] else rows
  }

  function Drop(rows: seq<Row>, n: nat): seq<Row> {
    if n < |rows| then rows[n..] else []
  }

  /** rows are `limit` members of s, in order, after skipping the first `offset`. */
  ghost predicate IsSlice(rows: seq<Row>, s: set<Row>, limit: nat, offset: nat) {
    exists all :: Lists(all, s) && rows == Take(Drop(all, offset), limit)
  }

  /** ORDER BY updated_at, id with LIMIT and OFFSET, after a cursor position. */
  method ListObjects(t: Table, since: Option<int>, limit: nat, offset: nat, p: Option<Pos>) returns (rows: seq<Row>, total: nat)
    requires Sound(t)
    ensures IsSlice(rows, Matching(t, since, p), limit, offset)
    ensures total == |set r | r in t && (since.None? || r.updatedAt > since.value)|
  {
    assert Matching(t, since, None) == set r | r in t && (since.None? || r.updatedAt > since.value);
    total := |Matching(t, since, None)|;
    var sorted, todo := [], Matching(t, since, p);
    while todo != {}
      invariant todo <= Matching(t, since, p) && Ordered(sorted)
      invariant forall r :: r in Matching(t, since, p) <==> r in sorted || r in todo
      invariant forall k, r :: 0 <= k < |sorted| && r in todo ==> Less(sorted[k], r)
      decreases todo
    {
      var r := LeastRow(todo);
      todo := todo - {r};
      sorted := sorted + [r];
    }
    rows := Take(Drop(sorted, offset), limit);
    assert Lists(sorted, Matching(t, since, p));
  }

  // ------------------------------------------------ the service

  datatype Config = Unreadable | Missing | Loaded

  datatype Response = Invalid | NotFound | Failed | Page(items: seq<Row>, total: nat, next: string)

  function SinceKey(format: int -> string, since: Option<int>): string {
    if since.None? then "" else format(since.value)
  }

  function LastPos(rows: seq<Row>): Option<Pos> {
    if rows == [] then None else Some(Pos(rows[|rows| - 1].updatedAt, rows[|rows| - 1].id))
  }

  function CursorAt(ns: string, sinceKey: string, p: Pos): ObjectCursor {
    ObjectCursor(1, ns, sinceKey, p.time, p.id)
  }

  /** The position a raw cursor resumes from. */
  function ResumeAt(d: Decoded): Option<Pos> {
    if d.Resume? then Some(Pos(d.cursor.updatedAt, d.cursor.id)) else None
  }

  method ListObjectsPage(json: Json, format: int -> string, ns: string, config: Config, t: Table, since: Option<int>, limit: nat, offset: nat, raw: string) returns (r: Response)
    requires Sound(t)
    ensures var d := DecodeObjectCursor(json, raw, ns, SinceKey(format, since));
            if ns == "" then r.Invalid?
            else if config.Unreadable? then r.Failed?
            else if config.Missing? then r.NotFound?
            else if d.Malformed? || d.Mismatch? || (d.Resume? && offset != 0) then r.Invalid?
            else
              && r.Page? && IsSlice(r.items, Matching(t, since, ResumeAt(d)), limit, offset)
              && r.total == |set r | r in t && (since.None? || r.updatedAt > since.value)|
              && r.next == if |r.items| == limit && r.items != []
                           then EncodeObjectCursor(json, CursorAt(ns, SinceKey(format, since), LastPos(r.items).value)) else ""
  {
    if ns == "" {
      return Invalid;
    }
    if config.Unreadable? {
      return Failed;
    }
    if config.Missing? {
      return NotFound;
    }
    var sinceKey := SinceKey(format, since);
    var d := DecodeObjectCursor(json, raw, ns, sinceKey);
    if d.Malformed? || d.Mismatch? {
      return Invalid;
    }
    if d.Resume? && offset != 0 {
      return Invalid;
    }
    var rows, total := ListObjects(t, since, limit, offset, ResumeAt(d));
    var next := "";
    if |rows| == limit && |rows| > 0 {
      next := EncodeObjectCursor(json, CursorAt(ns, sinceKey, LastPos(rows).value));
    }
    r := Page(rows, total, next);
  }

  // ------------------------------------------------ following cursors on a fixed table

  /** The seen rows are those up to position p. */
  ghost predicate Visited(t: Table, since: Option<int>, p: Option<Pos>, seen: seq<Row>) {
    Lists(seen, Matching(t, since, None) - Matching(t, since, p)) && (p.None? ==> seen == []) && (p.Some? ==> LastPos(seen) == p)
  }

  /** A full page moves the position to its last row. */
  lemma PageVisited(t: Table, since: Option<int>, p: Option<Pos>, seen: seq<Row>, all: seq<Row>, n: nat)
    requires Visited(t, since, p, seen) && Lists(all, Matching(t, since, p)) && 0 < n <= |all|
    ensures Visited(t, since, LastPos(all[..n]), seen + all[..n])
    ensures Matching(t, since, LastPos(all[..n])) < Matching(t, since, p)
  {
    var page := all[..n];
    var q := LastPos(page);
    var last := all[n - 1];
    assert last in all;
    forall r | r in all ensures r in page <==> !After(r, q) {
      var k :| 0 <= k < |all| && all[k] == r;
      if k < n {
        assert page[k] == r;
        assert k < n - 1 ==> Less(all[k], all[n - 1]);
      } else {
        assert Less(all[n - 1], all[k]);
        forall j | 0 <= j < n ensures page[j] != r {
          assert Less(all[j], all[k]);
        }
      }
    }
    assert last in Matching(t, since, p) && last !in Matching(t, since, q);
    forall k | 0 <= k < |page| ensures After(page[k], p) {
      assert page[k] in all;
    }
    JoinOrdered(seen, page, p);
    forall r ensures r in seen + page <==> r in Matching(t, since, None) - Matching(t, since, q) {
      assert r in page ==> r in all;
      assert r in all <==> r in Matching(t, since, p);
      assert r in seen <==> r in Matching(t, since, None) && r !in Matching(t, since, p);
      assert r in Matching(t, since, p) ==> r in Matching(t, since, None);
      assert r in Matching(t, since, q) ==> r in Matching(t, since, p) by {
        LaterPos(r, p, last);
      }
    }
  }

  lemma LaterPos(r: Row, p: Option<Pos>, last: Row)
    requires After(last, p)
    ensures After(r, Some(Pos(last.updatedAt, last.id))) ==> After(r, p)
  {
  }

  lemma JoinOrdered(seen: seq<Row>, page: seq<Row>, p: Option<Pos>)
    requires Ordered(seen) && Ordered(page) && (p.None? ==> seen == []) && (p.Some? ==> LastPos(seen) == p)
    requires forall k :: 0 <= k < |page| ==> After(page[k], p)
    ensures Ordered(seen + page)
  {
    forall j, k | 0 <= j < |seen| && 0 <= k < |page| ensures Less(seen[j], page[k]) {
      var last := seen[|seen| - 1];
      assert j < |seen| - 1 ==> Less(seen[j], last);
    }
  }

  /** raw is no cursor, or one that resumes at p. */
  ghost predicate Resumes(json: Json, format: int -> string, ns: string, since: Option<int>, raw: string, p: Option<Pos>) {
    var d := DecodeObjectCursor(json, raw, ns, SinceKey(format, since));
    (d.NoCursor? || d.Resume?) && p == ResumeAt(d)
  }

  /** Fetch one page: either it was the last, or its cursor resumes right after it. */
  method NextPage(json: Json, format: int -> string, ns: string, t: Table, since: Option<int>, limit: nat, raw: string, ghost p: Option<Pos>, ghost seen: seq<Row>)
    returns (items: seq<Row>, next: string, ghost p': Option<Pos>)
    requires Sound(t) && Faithful(json) && ns != "" && limit > 0 && Visited(t, since, p, seen) && Resumes(json, format, ns, since, raw, p)
    ensures next == "" ==> Lists(seen + items, Matching(t, since, None))
    ensures next != "" ==> Visited(t, since, p', seen + items) && Resumes(json, format, ns, since, next, p') && Matching(t, since, p') < Matching(t, since, p)
  {
    var r := ListObjectsPage(json, format, ns, Loaded, t, since, limit, 0, raw);
    items, next, p' := r.items, r.next, p;
    p' := PageFollows(json, format, ns, t, since, limit, p, seen, items, next);
  }

  lemma PageFollows(json: Json, format: int -> string, ns: string, t: Table, since: Option<int>, limit: nat, p: Option<Pos>, seen: seq<Row>, items: seq<Row>, next: string)
    returns (p': Option<Pos>)
    requires Sound(t) && Faithful(json) && limit > 0 && Visited(t, since, p, seen) && IsSlice(items, Matching(t, since, p), limit, 0)
    requires next == if |items| == limit && items != []
                     then EncodeObjectCursor(json, CursorAt(ns, SinceKey(format, since), LastPos(items).value)) else ""
    ensures next == "" ==> Lists(seen + items, Matching(t, since, None))
    ensures next != "" ==> Visited(t, since, p', seen + items) && Resumes(json, format, ns, since, next, p') && Matching(t, since, p') < Matching(t, since, p)
  {
    var all :| Lists(all, Matching(t, since, p)) && items == Take(Drop(all, 0), limit);
    assert Drop(all, 0) == all && all[..|all|] == all;
    p' := p;
    if items == [] {
      NothingLeft(t, since, p, seen, all);
      assert seen + items == seen;
      return;
    }
    var n := |items|;
    assert items == all[..n];
    PageVisited(t, since, p, seen, all, n);
    p' := LastPos(all[..n]);
    if n < limit {
      NothingAfter(t, since, p, all);
      NothingLeft(t, since, LastPos(all), seen + items, []);
    } else {
      IssuedCursor(json, format, ns, t, since, all, n);
    }
  }

  /** Follow NextCursor to the end: on a table that does not change this terminates and
      visits every matching row exactly once, in (updated_at, id) order. */
  method FollowCursors(json: Json, format: int -> string, ns: string, t: Table, since: Option<int>, limit: nat) returns (seen: seq<Row>)
    requires Sound(t) && Faithful(json) && ns != "" && limit > 0
    ensures Lists(seen, Matching(t, since, None))
    ensures forall r :: r in seen <==> r in t && (since.None? || r.updatedAt > since.value)
    ensures forall j, k :: 0 <= j < k < |seen| ==> seen[j].updatedAt < seen[k].updatedAt || (seen[j].updatedAt == seen[k].updatedAt && seen[j].id < seen[k].id)
  {
    seen := [];
    var raw, more := "", true;
    ghost var p: Option<Pos> := None;
    while more
      invariant more ==> Visited(t, since, p, seen) && Resumes(json, format, ns, since, raw, p)
      invariant !more ==> Lists(seen, Matching(t, since, None))
      decreases more, Matching(t, since, p)
    {
      var items;
      items, raw, p := NextPage(json, format, ns, t, since, limit, raw, p, seen);
      seen := seen + items;
      more := raw != "";
    }
  }

  lemma NothingLeft(t: Table, since: Option<int>, p: Option<Pos>, seen: seq<Row>, all: seq<Row>)
    requires Visited(t, since, p, seen) && Lists(all, Matching(t, since, p)) && all == []
    ensures Lists(seen, Matching(t, since, None))
  {
    forall r ensures r !in Matching(t, since, p) {
      assert r in all <==> r in Matching(t, since, p);
    }
  }

  /** The last row of all leaves nothing behind it. */
  lemma NothingAfter(t: Table, since: Option<int>, p: Option<Pos>, all: seq<Row>)
    requires all != [] && Lists(all, Matching(t, since, p))
    ensures Lists([], Matching(t, since, LastPos(all)))
  {
    var last := all[|all| - 1];
    assert last in all;
    forall r ensures r !in Matching(t, since, LastPos(all)) {
      LaterPos(r, p, last);
      assert r in all ==> r == last || Less(r, last);
    }
  }

  /** The cursor of a page resumes right after its last row. */
  lemma IssuedCursor(json: Json, format: int -> string, ns: string, t: Table, since: Option<int>, all: seq<Row>, n: nat)
    requires Sound(t) && Faithful(json) && 0 < n <= |all| && forall r :: r in all ==> r in t
    ensures var c := CursorAt(ns, SinceKey(format, since), LastPos(all[..n]).value);
            DecodeObjectCursor(json, EncodeObjectCursor(json, c), ns, SinceKey(format, since)) == Resume(c)
  {
    assert all[n - 1] in all;
    CursorRoundTrip(json, CursorAt(ns, SinceKey(format, since), LastPos(all[..n]).value), ns, SinceKey(format, since));
  }

  /** A cursor belongs to its query: issued for one namespace and changed_since, it is refused
      for any other, times being written so that they can be told apart. */
  lemma CursorForItsQueryOnly(json: Json, format: int -> string, ns: string, since: Option<int>, p: Pos, ns': string, since': Option<int>)
    requires Faithful(json) && p.id >= 1 && p.time != ZERO_TIME
    requires (forall a, b :: format(a) == format(b) ==> a == b) && forall a :: |format(a)| > 0
    ensures DecodeObjectCursor(json, EncodeObjectCursor(json, CursorAt(ns, SinceKey(format, since), p)), ns', SinceKey(format, since'))
            == if ns == ns' && since == since' then Resume(ObjectCursor(1, ns, SinceKey(format, since), p.time, p.id)) else Mismatch
  {
    SinceKeyInjective(format, since, since');
    CursorRoundTrip(json, CursorAt(ns, SinceKey(format, since), p), ns', SinceKey(format, since'));
  }

  lemma SinceKeyInjective(format: int -> string, since: Option<int>, since': Option<int>)
    requires (forall a, b :: format(a) == format(b) ==> a == b) && forall a :: |format(a)| > 0
    ensures SinceKey(format, since) == SinceKey(format, since') <==> since == since'
  {
    var a, b := if since.Some? then since.value else 0, if since'.Some? then since'.value else 0;
    Distinguishable(format, a, b);
  }

  lemma Distinguishable(format: int -> string, a: int, b: int)
    requires (forall x, y :: format(x) == format(y) ==> x == y) && forall x :: |format(x)| > 0
    ensures (format(a) == format(b) ==> a == b) && |format(a)| > 0 && |format(b)| > 0
  {
  }

  // ------------------------------------------------ following cursors while rows change

  /** page is the first rows after p: complete, or full with everything else behind it. */
  ghost predicate IsPage(t: Table, since: Option<int>, p: Option<Pos>, limit: nat, page: seq<Row>) {
    && Ordered(page) && |page| <= limit
    && (forall r :: r in page ==> r in Matching(t, since, p))
    && (forall r :: r in Matching(t, since, p) && r !in page ==> |page| == limit && After(r, LastPos(page)))
  }

  /** What the service returns is such a page. */
  lemma SliceIsPage(t: Table, since: Option<int>, p: Option<Pos>, limit: nat, page: seq<Row>)
    requires limit > 0 && IsSlice(page, Matching(t, since, p), limit, 0)
    ensures IsPage(t, since, p, limit, page)
  {
    var all :| Lists(all, Matching(t, since, p)) && page == Take(Drop(all, 0), limit);
    assert all[0..] == all && forall k :: 0 <= k < |page| ==> page[k] == all[k];
    forall r | r in all && r !in page ensures |page| == limit && After(r, LastPos(page)) {
      var k :| 0 <= k < |all| && all[k] == r;
      assert Less(all[limit - 1], all[k]);
    }
  }

  /** Between two pages rows may be added, and a row may move, but only past every time
      already returned. */
  ghost predicate MovesPast(t: Table, t': Table, returned: seq<Row>) {
    forall r :: r in t ==> exists r' :: r' in t' && Moved(r, r', returned)
  }

  predicate Moved(r: Row, r': Row, returned: seq<Row>) {
    r'.id == r.id && (r'.updatedAt == r.updatedAt || forall x :: x in returned ==> r'.updatedAt > x.updatedAt)
  }

  function Concat(pages: seq<seq<Row>>, n: nat): seq<Row>
    requires n <= |pages|
  {
    if n == 0 then [] else Concat(pages, n - 1) + pages[n - 1]
  }

  /** The position page k starts from. */
  function StartOf(pages: seq<seq<Row>>, k: nat): Option<Pos>
    requires k <= |pages|
  {
    if k == 0 then None else LastPos(pages[k - 1])
  }

  /** Pages read one after another from a changing table, the last one without a cursor. */
  ghost predicate Reads(ts: seq<Table>, since: Option<int>, limit: nat, pages: seq<seq<Row>>) {
    && limit > 0 && |ts| == |pages| > 0
    && (forall k :: 0 <= k < |pages| ==> IsPage(ts[k], since, StartOf(pages, k), limit, pages[k]))
    && (forall k :: 0 <= k < |pages| - 1 ==> |pages[k]| == limit && MovesPast(ts[k], ts[k + 1], Concat(pages, k + 1)))
    && |pages[|pages| - 1]| < limit
  }

  /** Row id has been returned by page k or is still ahead of it. */
  ghost predicate SeenOrAhead(ts: seq<Table>, since: Option<int>, pages: seq<seq<Row>>, k: nat, id: int)
    requires k < |ts| == |pages|
  {
    (exists x :: x in Concat(pages, k) && x.id == id) || (exists r :: r in Matching(ts[k], since, StartOf(pages, k)) && r.id == id)
  }

  lemma StillAhead(ts: seq<Table>, since: Option<int>, limit: nat, pages: seq<seq<Row>>, k: nat, r: Row)
    requires Reads(ts, since, limit, pages) && k < |pages| - 1
    requires r in Matching(ts[k], since, StartOf(pages, k)) && r !in pages[k]
    ensures exists r' :: r' in Matching(ts[k + 1], since, StartOf(pages, k + 1)) && r'.id == r.id
  {
    assert IsPage(ts[k], since, StartOf(pages, k), limit, pages[k]);
    var last := pages[k][limit - 1];
    assert last in pages[k] && last in Concat(pages, k + 1);
    var r' :| r' in ts[k + 1] && Moved(r, r', Concat(pages, k + 1));
    assert r' in Matching(ts[k + 1], since, StartOf(pages, k + 1));
  }

  lemma {:induction false} NeverSkipped(ts: seq<Table>, since: Option<int>, limit: nat, pages: seq<seq<Row>>, k: nat, r: Row)
    requires Reads(ts, since, limit, pages) && k < |pages| && r in Matching(ts[0], since, None)
    ensures SeenOrAhead(ts, since, pages, k, r.id)
  {
    if k > 0 {
      NeverSkipped(ts, since, limit, pages, k - 1, r);
      if x :| x in Concat(pages, k - 1) && x.id == r.id {
        assert x in Concat(pages, k);
      } else {
        var y :| y in Matching(ts[k - 1], since, StartOf(pages, k - 1)) && y.id == r.id;
        if y in pages[k - 1] {
          assert y in Concat(pages, k);
        } else {
          StillAhead(ts, since, limit, pages, k - 1, y);
        }
      }
    }
  }

  /** Every row that matched at the start is returned at least once, even if it moved. */
  lemma EveryInitialRowSeen(ts: seq<Table>, since: Option<int>, limit: nat, pages: seq<seq<Row>>, r: Row)
    requires Reads(ts, since, limit, pages) && r in Matching(ts[0], since, None)
    ensures exists x :: x in Concat(pages, |pages|) && x.id == r.id
  {
    var k := |pages| - 1;
    NeverSkipped(ts, since, limit, pages, k, r);
    if x :| x in Concat(pages, k) && x.id == r.id {
      assert x in Concat(pages, |pages|);
    } else {
      var y :| y in Matching(ts[k], since, StartOf(pages, k)) && y.id == r.id;
      assert y in pages[k];
      assert y in Concat(pages, |pages|);
    }
  }
}
