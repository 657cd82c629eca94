/**
  Cursor pagination of the audit log (backend/src/doda/application/audit_query_service.py), and a client
  that walks it page by page while every page view appends an event of its own (backend/src/doda/api/audit.py).
*/
module AuditPages {
  import opened Wrappers

  const MAX_PAGE_SIZE: nat := 200

  datatype Row = Row(id: int, createdAt: int, workspace: Option<string>, actor: string, eventType: string, trace: string)

  datatype Filter = Filter(
    workspace: Option<string>, actor: Option<string>, eventType: Option<string>, trace: Option<string>)

  predicate Matches(f: Filter, r: Row) {
    && (f.workspace.Some? ==> r.workspace == f.workspace)
    && (f.actor.Some? ==> r.actor == f.actor.value)
    && (f.eventType.Some? ==> r.eventType == f.eventType.value)
    && (f.trace.Some? ==> r.trace == f.trace.value)
  }

  // The order of the (created_at, id) tuples.
  predicate Older(a: Row, b: Row) {
    a.createdAt < b.createdAt || (a.createdAt == b.createdAt && a.id < b.id)
  }

  // Any two rows are in order, the times before the ids.
  lemma OlderIsTotal(a: Row, b: Row)
    requires a.id != b.id
    ensures Older(a, b) <==> !Older(b, a)
    ensures a.createdAt < b.createdAt ==> Older(a, b)
    ensures a.createdAt == b.createdAt ==> (Older(a, b) <==> a.id < b.id)
  {
  }

  // One customer's rows, oldest first.
  ghost predicate Table(rows: seq<Row>) {
    && (forall i, j :: 0 <= i < j < |rows| ==> Older(rows[i], rows[j]))
    && (forall i, j :: 0 <= i < j < |rows| ==> rows[i].id != rows[j].id)
  }

  // session.get: the row with this id, if there is one.
  function Get(rows: seq<Row>, id: int): Option<Row> {
    if rows == [] then None
    else if rows[|rows| - 1].id == id then Some(rows[|rows| - 1])
    else Get(rows[..|rows| - 1], id)
  }

  // The WHERE clause and the descending order, before the limit.
  function Selected(rows: seq<Row>, f: Filter, cursor: Option<Row>): seq<Row> {
    if rows == [] then []
    else
      var last := rows[|rows| - 1];
      (if Matches(f, last) && (cursor.Some? ==> Older(last, cursor.value)) then [last] else [])
      + Selected(rows[..|rows| - 1], f, cursor)
  }

  function Take(rows: seq<Row>, limit: nat): (page: seq<Row>)
    ensures page <= rows && |page| == if |rows| <= limit then |rows| else limit
  {
    if |rows| <= limit then rows else rows[..limit]
  }

  // list_audit_events; an unknown before_id puts no bound on the page.
  function Page(rows: seq<Row>, f: Filter, limit: nat, beforeId: Option<int>): seq<Row> {
    var cursor := if beforeId.Some? then Get(rows, beforeId.value) else None;
    Take(Selected(rows, f, cursor), if limit <= MAX_PAGE_SIZE then limit else MAX_PAGE_SIZE)
  }

  // ---------- What one page holds ----------

  lemma {:induction false} GetFinds(rows: seq<Row>, r: Row)
    requires Table(rows) && r in rows
    ensures Get(rows, r.id) == Some(r)
  {
    if rows[|rows| - 1] != r {
      var i :| 0 <= i < |rows| && rows[i] == r;
      assert rows[..|rows| - 1][i] == r;
      GetFinds(rows[..|rows| - 1], r);
    }
  }

  lemma {:induction false} SelectedMembers(rows: seq<Row>, f: Filter, cursor: Option<Row>, r: Row)
    ensures r in Selected(rows, f, cursor) <==>
        r in rows && Matches(f, r) && (cursor.Some? ==> Older(r, cursor.value))
  {
    if rows != [] {
      SelectedMembers(rows[..|rows| - 1], f, cursor, r);
      assert rows == rows[..|rows| - 1] + [rows[|rows| - 1]];
    }
  }

  // Rows newer than everything in the cursor's past are invisible behind the cursor.
  lemma {:induction false} AppendedRowsInvisible(rows: seq<Row>, more: seq<Row>, f: Filter, cursor: Row)
    requires forall r :: r in more ==> !Older(r, cursor)
    ensures Selected(rows + more, f, Some(cursor)) == Selected(rows, f, Some(cursor))
  {
    if more == [] {
      assert rows + more == rows;
    } else {
      var n := |more| - 1;
      assert (rows + more)[..|rows + more| - 1] == rows + more[..n];
      assert more[n] in more;
      AppendedRowsInvisible(rows, more[..n], f, cursor);
    }
  }

  // One more row in front of a cursor it is not older than changes nothing.
  lemma NewestSkipped(rows: seq<Row>, f: Filter, cursor: Row)
    requires rows != [] && !Older(rows[|rows| - 1], cursor)
    ensures Selected(rows, f, Some(cursor)) == Selected(rows[..|rows| - 1], f, Some(cursor))
  {
  }

  lemma SelectedNotNewest(rows: seq<Row>, f: Filter, cursor: Option<Row>, r: Row)
    requires Table(rows) && rows != [] && r in Selected(rows[..|rows| - 1], f, cursor)
    ensures !Older(rows[|rows| - 1], r)
  {
    SelectedMembers(rows[..|rows| - 1], f, cursor, r);
    var i :| 0 <= i < |rows| - 1 && rows[i] == r;
    assert Older(rows[i], rows[|rows| - 1]);
  }

  // The rows behind the k-th selected row are the rest of the selection.
  lemma {:induction false} BehindCursor(rows: seq<Row>, f: Filter, cursor: Option<Row>, k: nat)
    requires Table(rows) && k < |Selected(rows, f, cursor)|
    ensures Selected(rows, f, Some(Selected(rows, f, cursor)[k])) == Selected(rows, f, cursor)[k + 1..]
  {
    var all := Selected(rows, f, cursor);
    var front, last := rows[..|rows| - 1], rows[|rows| - 1];
    var tail := Selected(front, f, cursor);
    var taken := Matches(f, last) && (cursor.Some? ==> Older(last, cursor.value));
    if taken && k == 0 {
      assert all == [last] + tail;
      SelectedOlder(front, f, cursor, last);
      NewestSkipped(rows, f, last);
    } else {
      var i := if taken then k - 1 else k;
      assert all == (if taken then [last] else []) + tail;
      assert all[k] == tail[i] && all[k + 1..] == tail[i + 1..];
      SelectedNotNewest(rows, f, cursor, tail[i]);
      NewestSkipped(rows, f, tail[i]);
      BehindCursor(front, f, cursor, i);
    }
  }

  // A cursor newer than every row in sight, and allowed by the bound already there, selects the same rows.
  lemma {:induction false} SelectedOlder(rows: seq<Row>, f: Filter, cursor: Option<Row>, newer: Row)
    requires forall r :: r in rows ==> Older(r, newer)
    requires cursor.Some? ==> Older(newer, cursor.value)
    ensures Selected(rows, f, Some(newer)) == Selected(rows, f, cursor)
  {
    if rows != [] {
      assert rows[|rows| - 1] in rows;
      SelectedOlder(rows[..|rows| - 1], f, cursor, newer);
    }
  }

  // ---------- Walking the log ----------

  // Between two requests the table only gains rows newer than all it had.
  ghost predicate Grows(before: seq<Row>, after: seq<Row>) {
    && Table(after) && before <= after
    && forall i, j :: 0 <= i < |before| <= j < |after| ==> Older(before[i], after[j])
  }

  ghost predicate History(tables: seq<seq<Row>>) {
    && tables != [] && Table(tables[0])
    && forall k :: 0 < k < |tables| ==> Grows(tables[k - 1], tables[k])
  }

  // Request k sees table k and sends the last id of the page before it.
  ghost predicate Follows(tables: seq<seq<Row>>, f: Filter, limit: nat, pages: seq<seq<Row>>, k: nat)
    requires k < |pages| <= |tables|
  {
    if k == 0 then pages[0] == Page(tables[0], f, limit, None)
    else pages[k - 1] != [] && pages[k] == Page(tables[k], f, limit, Some(pages[k - 1][|pages[k - 1]| - 1].id))
  }

  // The pages a client gets, up to some request.
  ghost predicate Walk(tables: seq<seq<Row>>, f: Filter, limit: nat, pages: seq<seq<Row>>) {
    0 < |pages| <= |tables| && forall k :: 0 <= k < |pages| ==> Follows(tables, f, limit, pages, k)
  }

  function Flatten(pages: seq<seq<Row>>): seq<Row> {
    if pages == [] then [] else Flatten(pages[..|pages| - 1]) + pages[|pages| - 1]
  }

  lemma {:induction false} GrowsFromFirst(tables: seq<seq<Row>>, k: nat)
    requires History(tables) && k < |tables|
    ensures Table(tables[k]) && tables[0] <= tables[k]
    ensures forall i, j :: 0 <= i < |tables[0]| <= j < |tables[k]| ==> Older(tables[0][i], tables[k][j])
  {
    if k > 0 {
      GrowsFromFirst(tables, k - 1);
      assert Grows(tables[k - 1], tables[k]);
      forall i, j | 0 <= i < |tables[0]| <= j < |tables[k]|
        ensures Older(tables[0][i], tables[k][j])
      {
        assert tables[0][i] == tables[k - 1][i];
        if j < |tables[k - 1]| { assert tables[k - 1][j] == tables[k][j]; }
      }
    }
  }

  // A later page, asked for behind row n of the first table's selection, continues that selection.
  lemma NextPage(tables: seq<seq<Row>>, k: nat, f: Filter, limit: nat, n: nat)
    requires History(tables) && k < |tables|
    requires n < |Selected(tables[0], f, None)|
    ensures var all := Selected(tables[0], f, None);
      Page(tables[k], f, limit, Some(all[n].id)) == Take(all[n + 1..], if limit <= MAX_PAGE_SIZE then limit else MAX_PAGE_SIZE)
  {
    var all := Selected(tables[0], f, None);
    GrowsFromFirst(tables, k);
    SelectedMembers(tables[0], f, None, all[n]);
    var first, more := tables[0], tables[k][|tables[0]|..];
    assert tables[k] == first + more;
    var i :| 0 <= i < |first| && first[i] == all[n];
    assert tables[k][i] == all[n];
    GetFinds(tables[k], all[n]);
    forall r | r in more
      ensures !Older(r, all[n])
    {
      var j :| 0 <= j < |more| && more[j] == r;
      assert tables[k][|first| + j] == r;
      assert Older(tables[0][i], tables[k][|first| + j]);
    }
    AppendedRowsInvisible(first, more, f, all[n]);
    BehindCursor(first, f, None, n);
  }

  ghost predicate ReadsPrefix(all: seq<Row>, pages: seq<seq<Row>>) {
    var n := |pages| - 1;
    && 0 <= n
    && Flatten(pages) <= all
    && (if pages[n] == [] then Flatten(pages) == all
        else |Flatten(pages)| > n && Flatten(pages)[|Flatten(pages)| - 1] == pages[n][|pages[n]| - 1])
  }

  lemma WalkStep(tables: seq<seq<Row>>, f: Filter, limit: nat, pages: seq<seq<Row>>, n: nat)
    requires History(tables) && 0 < n < |pages| <= |tables| && Follows(tables, f, limit, pages, n) && limit >= 1
    requires ReadsPrefix(Selected(tables[0], f, None), pages[..n])
    ensures ReadsPrefix(Selected(tables[0], f, None), pages[..n + 1])
    ensures |Flatten(pages[..n])| >= n
  {
    var all := Selected(tables[0], f, None);
    var before := pages[..n];
    var read := Flatten(before);
    assert pages[n - 1] == before[n - 1];
    assert all[|read| - 1] == read[|read| - 1];
    NextPage(tables, n, f, limit, |read| - 1);
    assert pages[..n + 1][..n] == before && pages[..n + 1][n] == pages[n];
    assert Flatten(pages[..n + 1]) == read + pages[n];
    assert all == read + all[|read|..];
  }

  // The pages read so far are a prefix of the first table's selection, and an empty page comes only at its end.
  lemma {:induction false} WalkReadsPrefix(tables: seq<seq<Row>>, f: Filter, limit: nat, pages: seq<seq<Row>>, n: nat)
    requires History(tables) && Walk(tables, f, limit, pages) && limit >= 1 && n < |pages|
    ensures ReadsPrefix(Selected(tables[0], f, None), pages[..n + 1])
    ensures n <= |Selected(tables[0], f, None)|
  {
    assert Follows(tables, f, limit, pages, n);
    if n == 0 {
      assert pages[..1][..0] == [];
      assert Flatten(pages[..1]) == pages[0];
    } else {
      WalkReadsPrefix(tables, f, limit, pages, n - 1);
      WalkStep(tables, f, limit, pages, n);
    }
  }

  // Every event that matched at the start, exactly once, newest first; none of the events the page
  // views appended. The walk ends: it has at most one page more than there are such events.
  lemma WalkReadsEverythingOnce(tables: seq<seq<Row>>, f: Filter, limit: nat, pages: seq<seq<Row>>)
    requires History(tables) && Walk(tables, f, limit, pages) && limit >= 1
    requires pages[|pages| - 1] == []
    ensures Flatten(pages) == Selected(tables[0], f, None)
    ensures |pages| <= |Selected(tables[0], f, None)| + 1
  {
    WalkReadsPrefix(tables, f, limit, pages, |pages| - 1);
    assert pages[..|pages|] == pages;
  }

  // The selection itself, independently of how the query computes it: the matching rows, newest first.
  lemma {:induction false} SelectionIsNewestFirst(rows: seq<Row>, f: Filter)
    requires Table(rows)
    ensures var all := Selected(rows, f, None);
      && (forall r :: r in all <==> r in rows && Matches(f, r))
      && (forall i, j :: 0 <= i < j < |all| ==> Older(all[j], all[i]))
  {
    var all := Selected(rows, f, None);
    forall r ensures r in all <==> r in rows && Matches(f, r) { SelectedMembers(rows, f, None, r); }
    if rows != [] {
      var front, last := rows[..|rows| - 1], rows[|rows| - 1];
      SelectionIsNewestFirst(front, f);
      var tail := Selected(front, f, None);
      forall j | 0 <= j < |tail|
        ensures Older(tail[j], last)
      {
        assert tail[j] in tail;
        var i :| 0 <= i < |front| && front[i] == tail[j];
        assert rows[i] == tail[j];
      }
    }
  }

  // Every row of a page has the value asked for in each field of the filter, and is older than the row the
  // page starts behind; a page holds no more rows than asked for, and never more than 200.
  lemma PageHoldsWhatWasAsked(rows: seq<Row>, f: Filter, limit: nat, beforeId: Option<int>, r: Row)
    requires r in Page(rows, f, limit, beforeId)
    ensures r in rows
    ensures f.workspace.Some? ==> r.workspace == f.workspace
    ensures f.actor.Some? ==> r.actor == f.actor.value
    ensures f.eventType.Some? ==> r.eventType == f.eventType.value
    ensures f.trace.Some? ==> r.trace == f.trace.value
    ensures forall cursor :: beforeId.Some? && Get(rows, beforeId.value) == Some(cursor) ==>
        r.createdAt < cursor.createdAt || (r.createdAt == cursor.createdAt && r.id < cursor.id)
    ensures |Page(rows, f, limit, beforeId)| <= limit && |Page(rows, f, limit, beforeId)| <= 200
  {
    var cursor := if beforeId.Some? then Get(rows, beforeId.value) else None;
    SelectedMembers(rows, f, cursor, r);
    assert r in Selected(rows, f, cursor);
  }

  // And a page leaves out a row only for one of these reasons, or because it is full of newer ones.
  lemma PageLeavesOut(rows: seq<Row>, f: Filter, limit: nat, r: Row)
    requires Table(rows) && r in rows && r !in Page(rows, f, limit, None)
    requires f.workspace.None? || r.workspace == f.workspace
    requires f.actor.None? || r.actor == f.actor.value
    requires f.eventType.None? || r.eventType == f.eventType.value
    requires f.trace.None? || r.trace == f.trace.value
    ensures |Page(rows, f, limit, None)| == if limit <= 200 then limit else 200
    ensures forall s :: s in Page(rows, f, limit, None) ==> Older(r, s)
  {
    SelectionIsNewestFirst(rows, f);
    var all, page := Selected(rows, f, None), Page(rows, f, limit, None);
    assert r in all;
    var k :| 0 <= k < |all| && all[k] == r;
    assert k >= |page|;
  }
}
