/** The reconciliation's keyset scan over a product table that changes between its pages. */
module ReconScan {
  import opened Common

  /** A product as the scan sees it; ids and stamps are ordered like integers. */
  datatype Row = Row(id: int, updatedAt: int, isDeleted: bool)

  datatype Cursor = Cursor(updatedAt: int, id: int)

  /** The scan's order: by stamp, then by id. */
  predicate Before(a: Cursor, b: Cursor) {
    a.updatedAt < b.updatedAt || (a.updatedAt == b.updatedAt && a.id < b.id)
  }

  function Key(r: Row): Cursor { Cursor(r.updatedAt, r.id) }

  predicate InWindow(r: Row, lookbackStart: int, runStart: int) {
    !r.isDeleted && lookbackStart <= r.updatedAt <= runStart
  }

  /** The filter of one page: the window, past the cursor. */
  predicate ReconBatchWhere(r: Row, lookbackStart: int, runStart: int, cursor: Option<Cursor>) {
    && InWindow(r, lookbackStart, runStart)
    && (cursor.Some? ==>
          r.updatedAt > cursor.value.updatedAt || (r.updatedAt == cursor.value.updatedAt && r.id > cursor.value.id))
  }

  function NextReconCursor(rows: seq<Row>): Option<Cursor> {
    if rows == [] then None else Some(Key(rows[|rows| - 1]))
  }

  // ---------------------------------------------------------------------------
  // The query
  // ---------------------------------------------------------------------------

  function Matching(table: seq<Row>, lookbackStart: int, runStart: int, cursor: Option<Cursor>): seq<Row> {
    if table == [] then [] else
    var last := table[|table| - 1];
    var rest := Matching(table[..|table| - 1], lookbackStart, runStart, cursor);
    if ReconBatchWhere(last, lookbackStart, runStart, cursor) then Placed(rest, last) else rest
  }

  /** Where a row goes among rows in scan order. */
  function Placed(sorted: seq<Row>, r: Row): seq<Row> {
    if sorted == [] || Before(Key(sorted[|sorted| - 1]), Key(r)) then sorted + [r]
    else Placed(sorted[..|sorted| - 1], r) + [sorted[|sorted| - 1]]
  }

  /** The first `take` matches in scan order. */
  function Page(table: seq<Row>, lookbackStart: int, runStart: int, cursor: Option<Cursor>, take: nat): seq<Row> {
    var all := Matching(table, lookbackStart, runStart, cursor);
    all[..Min(take, |all|)]
  }

  ghost predicate Ascending(rows: seq<Row>) {
    forall i, j | 0 <= i < j < |rows| :: Before(Key(rows[i]), Key(rows[j]))
  }

  ghost predicate UniqueIds(table: seq<Row>) {
    forall i, j | 0 <= i < j < |table| :: table[i].id != table[j].id
  }

  lemma {:induction false} PlacedInOrder(sorted: seq<Row>, r: Row)
    requires Ascending(sorted) && forall i | 0 <= i < |sorted| :: sorted[i].id != r.id
    ensures Ascending(Placed(sorted, r))
    ensures forall x :: x in Placed(sorted, r) <==> x in sorted || x == r
  {
    if sorted == [] || Before(Key(sorted[|sorted| - 1]), Key(r)) {
    } else {
      var n := |sorted| - 1;
      PlacedInOrder(sorted[..n], r);
      var inner := Placed(sorted[..n], r);
      assert forall i | 0 <= i < |inner| :: inner[i] in inner;
      assert forall i | 0 <= i < |inner| :: Before(Key(inner[i]), Key(sorted[n])) by {
        forall i | 0 <= i < |inner| ensures Before(Key(inner[i]), Key(sorted[n])) {
          assert inner[i] in sorted[..n] || inner[i] == r;
        }
      }
      assert sorted == sorted[..n] + [sorted[n]];
    }
  }

  /** The matches in scan order are exactly the table's matching rows, each once. */
  lemma {:induction false} MatchingIsQuery(table: seq<Row>, lookbackStart: int, runStart: int, cursor: Option<Cursor>)
    requires UniqueIds(table)
    ensures var all := Matching(table, lookbackStart, runStart, cursor);
      && Ascending(all)
      && forall r :: r in all <==> r in table && ReconBatchWhere(r, lookbackStart, runStart, cursor)
  {
    hide ReconBatchWhere;
    if table != [] {
      var n := |table| - 1;
      MatchingIsQuery(table[..n], lookbackStart, runStart, cursor);
      var rest := Matching(table[..n], lookbackStart, runStart, cursor);
      assert table == table[..n] + [table[n]];
      forall i | 0 <= i < |rest| ensures rest[i].id != table[n].id {
        assert rest[i] in rest;
        assert rest[i] in table[..n];
      }
      if ReconBatchWhere(table[n], lookbackStart, runStart, cursor) {
        PlacedInOrder(rest, table[n]);
      }
    }
  }

  // ---------------------------------------------------------------------------
  // One page
  // ---------------------------------------------------------------------------

  /** A page holds matches in order, and every other match lies after it; a short page holds them all. */
  ghost predicate IsPage(page: seq<Row>, table: seq<Row>, lookbackStart: int, runStart: int, cursor: Option<Cursor>, take: nat) {
    && Ascending(page) && |page| <= take
    && (forall r | r in page :: r in table && ReconBatchWhere(r, lookbackStart, runStart, cursor))
    && (forall r | r in table && ReconBatchWhere(r, lookbackStart, runStart, cursor) && r !in page ::
          |page| == take && (page != [] ==> Before(Key(page[|page| - 1]), Key(r))))
  }

  lemma {:induction false} QueryIsPage(table: seq<Row>, lookbackStart: int, runStart: int, cursor: Option<Cursor>, take: nat)
    requires UniqueIds(table)
    ensures IsPage(Page(table, lookbackStart, runStart, cursor, take), table, lookbackStart, runStart, cursor, take)
  {
    hide ReconBatchWhere, Matching;
    MatchingIsQuery(table, lookbackStart, runStart, cursor);
    var all := Matching(table, lookbackStart, runStart, cursor);
    var page := Page(table, lookbackStart, runStart, cursor, take);
    forall r | r in page ensures r in all {
    }
    forall r | r in all && r !in page ensures |page| == take && (page != [] ==> Before(Key(page[|page| - 1]), Key(r))) {
      assert forall i | 0 <= i < |page| :: page[i] == all[i] && page[i] in page;
      var i :| 0 <= i < |all| && all[i] == r;
      assert |page| <= i;
    }
  }

  /** The matches that come before a row. */
  ghost function Ahead(table: seq<Row>, lookbackStart: int, runStart: int, cursor: Option<Cursor>, r: Row): set<Row> {
    set q | q in table && ReconBatchWhere(q, lookbackStart, runStart, cursor) && Before(Key(q), Key(r))
  }

  /** A row of the table that the next page shows: it matches, with fewer than `take` matches before it. */
  ghost predicate IsNext(r: Row, table: seq<Row>, lookbackStart: int, runStart: int, cursor: Option<Cursor>, take: nat) {
    && r in table && ReconBatchWhere(r, lookbackStart, runStart, cursor)
    && |Ahead(table, lookbackStart, runStart, cursor, r)| < take
  }

  lemma {:induction false} OnPageExactly(
      table: seq<Row>, lookbackStart: int, runStart: int, cursor: Option<Cursor>, take: nat, r: Row)
    requires UniqueIds(table)
    ensures r in Page(table, lookbackStart, runStart, cursor, take) <==> IsNext(r, table, lookbackStart, runStart, cursor, take)
  {
    hide ReconBatchWhere, Matching, Before;
    MatchingIsQuery(table, lookbackStart, runStart, cursor);
    var all := Matching(table, lookbackStart, runStart, cursor);
    if r in all {
      var i :| 0 <= i < |all| && all[i] == r;
      AheadIsIndex(all, i);
      assert Ahead(table, lookbackStart, runStart, cursor, r) == set q | q in all && Before(Key(q), Key(r));
      var n := Min(take, |all|);
      if r in all[..n] {
        var j :| 0 <= j < n && all[..n][j] == r;
        OnePlace(all, i, j);
      }
      if i < n {
        assert all[..n][i] == r;
      }
    }
  }

  lemma {:induction false} OnePlace(rows: seq<Row>, i: nat, j: nat)
    requires Ascending(rows) && i < |rows| && j < |rows| && rows[i] == rows[j]
    ensures i == j
  {}

  lemma {:induction false} InOrder(all: seq<Row>, i: nat, j: nat)
    requires Ascending(all) && i < |all| && j < |all|
    ensures Before(Key(all[i]), Key(all[j])) <==> i < j
  {}

  /** In scan order, a row's place is the number of rows before it. */
  lemma {:induction false} AheadIsIndex(all: seq<Row>, i: nat)
    requires Ascending(all) && i < |all|
    ensures |set q | q in all && Before(Key(q), Key(all[i]))| == i
  {
    hide Before, Ascending;
    var ahead := set q | q in all && Before(Key(q), Key(all[i]));
    forall j: nat | j < |all| ensures all[j] in ahead <==> j < i {
      InOrder(all, j, i);
    }
    if i == 0 {
      assert ahead == {};
    } else {
      AheadIsIndex(all, i - 1);
      var earlier := set q | q in all && Before(Key(q), Key(all[i - 1]));
      forall j: nat | j < |all| ensures all[j] in earlier <==> j < i - 1 {
        InOrder(all, j, i - 1);
      }
      forall q ensures q in ahead <==> q in earlier + {all[i - 1]} {
        if q in all {
          var j :| 0 <= j < |all| && all[j] == q;
        }
      }
      assert all[i - 1] !in earlier;
      assert ahead == earlier + {all[i - 1]};
    }
  }

  /** The next page shows a product already visited exactly when its current row matches past the cursor and has its place on the page. */
  lemma {:induction false} ShownAgainExactly(
      visited: seq<Row>, i: nat, table: seq<Row>, lookbackStart: int, runStart: int, take: nat)
    requires UniqueIds(table) && i < |visited|
    ensures var cursor := NextReconCursor(visited);
      (exists r: Row :: r in Page(table, lookbackStart, runStart, cursor, take) && r.id == visited[i].id)
      <==> exists r: Row :: IsNext(r, table, lookbackStart, runStart, cursor, take) && r.id == visited[i].id
  {
    hide Page, IsNext;
    forall r: Row {
      OnPageExactly(table, lookbackStart, runStart, NextReconCursor(visited), take, r);
    }
  }

  /** Keys only grow from page to page, whatever happens to the table. */
  lemma {:induction false} PagesAscend(
      visited: seq<Row>, page: seq<Row>, table: seq<Row>, lookbackStart: int, runStart: int, take: nat)
    requires Ascending(visited) && IsPage(page, table, lookbackStart, runStart, NextReconCursor(visited), take)
    ensures Ascending(visited + page)
  {
    hide InWindow;
    forall i, j | 0 <= i < j < |visited + page| ensures Before(Key((visited + page)[i]), Key((visited + page)[j])) {
      if i < |visited| <= j {
        assert page[j - |visited|] in page;
        assert i < |visited| - 1 ==> Before(Key(visited[i]), Key(visited[|visited| - 1]));
      }
    }
  }

  /** A product visited twice was stamped again in between, inside the window: no other change repeats a visit. */
  lemma {:induction false} VisitedTwiceIsRestamped(visited: seq<Row>, i: nat, j: nat)
    requires Ascending(visited) && i < j < |visited| && visited[i].id == visited[j].id
    ensures visited[i].updatedAt < visited[j].updatedAt
  {}

  // ---------------------------------------------------------------------------
  // The scan over any tables
  // ---------------------------------------------------------------------------

  /** The rows visited so far, and whether the last page was short. */
  datatype Progress = Progress(visited: seq<Row>, isDone: bool)

  /** The scan after n pages, whatever the table holds at each of them. */
  function Scanned(tables: nat -> seq<Row>, lookbackStart: int, runStart: int, take: nat, n: nat): Progress {
    if n == 0 then Progress([], false) else
    var before := Scanned(tables, lookbackStart, runStart, take, n - 1);
    if before.isDone then before else
    var page := Page(tables(n - 1), lookbackStart, runStart, NextReconCursor(before.visited), take);
    Progress(before.visited + page, page == [] || |page| < take)
  }

  ghost predicate Names(rows: seq<Row>, id: int) { exists i :: 0 <= i < |rows| && rows[i].id == id }

  ghost predicate VisitsOnce(rows: seq<Row>) {
    forall i, j | 0 <= i < j < |rows| :: rows[i].id != rows[j].id
  }

  /** The k-th read finds a visited product among the rows of its page. */
  ghost predicate RevisitsAt(tables: nat -> seq<Row>, lookbackStart: int, runStart: int, take: nat, k: nat) {
    var before := Scanned(tables, lookbackStart, runStart, take, k);
    && !before.isDone
    && exists r: Row :: Names(before.visited, r.id)
                && IsNext(r, tables(k), lookbackStart, runStart, NextReconCursor(before.visited), take)
  }

  lemma {:induction false} ScannedAscends(tables: nat -> seq<Row>, lookbackStart: int, runStart: int, take: nat, n: nat)
    requires forall k: nat :: UniqueIds(tables(k))
    ensures Ascending(Scanned(tables, lookbackStart, runStart, take, n).visited)
  {
    hide Page, IsPage;
    if n > 0 {
      ScannedAscends(tables, lookbackStart, runStart, take, n - 1);
      var before := Scanned(tables, lookbackStart, runStart, take, n - 1);
      if !before.isDone {
        var page := Page(tables(n - 1), lookbackStart, runStart, NextReconCursor(before.visited), take);
        QueryIsPage(tables(n - 1), lookbackStart, runStart, NextReconCursor(before.visited), take);
        PagesAscend(before.visited, page, tables(n - 1), lookbackStart, runStart, take);
      }
    }
  }

  /**
   * Whatever happens to the table between the pages, a scan visits a product
   * twice exactly when some read finds one already visited, restamped past the
   * cursor but not past the run's start, early enough for the page.
   */
  lemma {:induction false} VisitsTwiceExactly(tables: nat -> seq<Row>, lookbackStart: int, runStart: int, take: nat, n: nat)
    requires forall k: nat :: UniqueIds(tables(k))
    ensures !VisitsOnce(Scanned(tables, lookbackStart, runStart, take, n).visited)
       <==> exists k: nat :: k < n && RevisitsAt(tables, lookbackStart, runStart, take, k)
  {
    hide Page, IsPage, IsNext, RevisitsAt, Names;
    if n > 0 {
      VisitsTwiceExactly(tables, lookbackStart, runStart, take, n - 1);
      OneReadMore(tables, lookbackStart, runStart, take, n - 1);
    }
  }

  lemma {:induction false} OneReadMore(tables: nat -> seq<Row>, lookbackStart: int, runStart: int, take: nat, k: nat)
    requires UniqueIds(tables(k))
    ensures VisitsOnce(Scanned(tables, lookbackStart, runStart, take, k + 1).visited)
       <==> VisitsOnce(Scanned(tables, lookbackStart, runStart, take, k).visited) && !RevisitsAt(tables, lookbackStart, runStart, take, k)
  {
    hide Page, IsPage, IsNext, VisitsOnce, Names;
    var before := Scanned(tables, lookbackStart, runStart, take, k);
    if !before.isDone {
      var cursor := NextReconCursor(before.visited);
      var page := Page(tables(k), lookbackStart, runStart, cursor, take);
      PageNamesOnce(tables(k), lookbackStart, runStart, cursor, take);
      JoinedOnce(before.visited, page);
      forall r {
        OnPageExactly(tables(k), lookbackStart, runStart, cursor, take, r);
      }
    }
  }

  lemma {:induction false} PageNamesOnce(table: seq<Row>, lookbackStart: int, runStart: int, cursor: Option<Cursor>, take: nat)
    requires UniqueIds(table)
    ensures VisitsOnce(Page(table, lookbackStart, runStart, cursor, take))
  {
    hide Page, UniqueIds, ReconBatchWhere;
    QueryIsPage(table, lookbackStart, runStart, cursor, take);
    DistinctIds(table, Page(table, lookbackStart, runStart, cursor, take));
  }

  lemma {:induction false} JoinedOnce(a: seq<Row>, b: seq<Row>)
    requires VisitsOnce(b)
    ensures VisitsOnce(a + b) <==> VisitsOnce(a) && forall r | r in b :: !Names(a, r.id)
  {
    var c := a + b;
    if VisitsOnce(c) {
      forall i, j | 0 <= i < j < |a| ensures a[i].id != a[j].id {
        assert c[i].id != c[j].id;
      }
      forall r | r in b ensures !Names(a, r.id) {
        var j :| 0 <= j < |b| && b[j] == r;
        forall i | 0 <= i < |a| ensures a[i].id != r.id {
          assert c[i].id != c[|a| + j].id;
        }
      }
    }
    if VisitsOnce(a) && forall r | r in b :: !Names(a, r.id) {
      forall i, j | 0 <= i < j < |c| ensures c[i].id != c[j].id {
        if i < |a| <= j {
          assert b[j - |a|] in b;
          assert a[i].id == c[i].id;
        } else if |a| <= i {
          assert b[i - |a|].id != b[j - |a|].id;
        }
      }
    }
  }

  // ---------------------------------------------------------------------------
  // The rest of a scan once the table stays as it is
  // ---------------------------------------------------------------------------

  ghost predicate SettlesOn(tables: nat -> seq<Row>, table: seq<Row>, k: nat) {
    UniqueIds(table) && forall j: nat | j >= k :: tables(j) == table
  }

  /** What a scan visits after `earlier`: the table's matches past the cursor, and nothing else. */
  ghost predicate IsRest(earlier: seq<Row>, visited: seq<Row>, table: seq<Row>, lookbackStart: int, runStart: int) {
    && earlier <= visited
    && forall r :: r in visited[|earlier|..] <==> r in table && ReconBatchWhere(r, lookbackStart, runStart, NextReconCursor(earlier))
  }

  lemma {:induction false} DoneStays(tables: nat -> seq<Row>, lookbackStart: int, runStart: int, take: nat, k: nat, n: nat)
    requires k <= n && Scanned(tables, lookbackStart, runStart, take, k).isDone
    ensures Scanned(tables, lookbackStart, runStart, take, n) == Scanned(tables, lookbackStart, runStart, take, k)
  {
    if k < n {
      DoneStays(tables, lookbackStart, runStart, take, k, n - 1);
    }
  }

  lemma {:induction false} ShortPageIsRest(
      earlier: seq<Row>, page: seq<Row>, table: seq<Row>, lookbackStart: int, runStart: int, take: nat)
    requires IsPage(page, table, lookbackStart, runStart, NextReconCursor(earlier), take) && |page| < take
    ensures IsRest(earlier, earlier + page, table, lookbackStart, runStart)
  {
    hide ReconBatchWhere, Ascending;
    assert (earlier + page)[|earlier|..] == page;
  }

  lemma {:induction false} FullPageLeavesRest(
      earlier: seq<Row>, page: seq<Row>, visited: seq<Row>, table: seq<Row>, lookbackStart: int, runStart: int, take: nat)
    requires IsPage(page, table, lookbackStart, runStart, NextReconCursor(earlier), take) && page != []
    requires IsRest(earlier + page, visited, table, lookbackStart, runStart)
    ensures IsRest(earlier, visited, table, lookbackStart, runStart)
  {
    hide InWindow, Ascending;
    var last := page[|page| - 1];
    assert last in page;
    assert NextReconCursor(earlier + page) == Some(Key(last));
    assert visited[|earlier|..] == page + visited[|earlier + page|..];
  }

  /** Once the table stays as it is, the scan ends, and what it still visits is exactly what matches past its cursor. */
  lemma {:induction false} RestOfScan(
      tables: nat -> seq<Row>, table: seq<Row>, lookbackStart: int, runStart: int, take: nat, k: nat)
    returns (end: nat)
    requires take > 0 && SettlesOn(tables, table, k) && !Scanned(tables, lookbackStart, runStart, take, k).isDone
    ensures k < end && Scanned(tables, lookbackStart, runStart, take, end).isDone
    ensures IsRest(Scanned(tables, lookbackStart, runStart, take, k).visited,
                   Scanned(tables, lookbackStart, runStart, take, end).visited, table, lookbackStart, runStart)
    decreases MatchSet(table, lookbackStart, runStart, NextReconCursor(Scanned(tables, lookbackStart, runStart, take, k).visited))
  {
    hide Page, IsPage, ReconBatchWhere, UniqueIds, IsRest;
    var earlier := Scanned(tables, lookbackStart, runStart, take, k).visited;
    var page := Page(table, lookbackStart, runStart, NextReconCursor(earlier), take);
    QueryIsPage(table, lookbackStart, runStart, NextReconCursor(earlier), take);
    end := k + 1;
    if |page| < take {
      ShortPageIsRest(earlier, page, table, lookbackStart, runStart, take);
    } else {
      PageShrinks(table, table, page, lookbackStart, runStart, NextReconCursor(earlier), take);
      assert NextReconCursor(earlier + page) == NextReconCursor(page);
      end := RestOfScan(tables, table, lookbackStart, runStart, take, k + 1);
      FullPageLeavesRest(earlier, page, Scanned(tables, lookbackStart, runStart, take, end).visited, table, lookbackStart, runStart, take);
    }
  }

  /** A product's row in the table is live and stamped past the cursor, but not past the run's start. */
  ghost predicate IsAheadAgain(table: seq<Row>, id: int, cursor: Cursor, runStart: int) {
    exists r: Row :: r in table && r.id == id && !r.isDeleted && Before(cursor, Key(r)) && r.updatedAt <= runStart
  }

  /**
   * Once the table stays as it is, the rest of the scan visits again exactly
   * those visited products whose rows are now ahead of the cursor and in the
   * window, and each of those once.
   */
  lemma {:induction false} RestRevisitsExactly(
      tables: nat -> seq<Row>, table: seq<Row>, lookbackStart: int, runStart: int, take: nat, k: nat, n: nat, i: nat)
    requires take > 0 && SettlesOn(tables, table, k) && !Scanned(tables, lookbackStart, runStart, take, k).isDone
    requires forall j: nat :: UniqueIds(tables(j))
    requires k <= n && Scanned(tables, lookbackStart, runStart, take, n).isDone
    requires i < |Scanned(tables, lookbackStart, runStart, take, k).visited|
    ensures var earlier, visited :=
        Scanned(tables, lookbackStart, runStart, take, k).visited, Scanned(tables, lookbackStart, runStart, take, n).visited;
      && earlier <= visited && VisitsOnce(visited[|earlier|..])
      && (Names(visited[|earlier|..], earlier[i].id) <==>
            IsAheadAgain(table, earlier[i].id, NextReconCursor(earlier).value, runStart))
  {
    hide Scanned, UniqueIds;
    var earlier := Scanned(tables, lookbackStart, runStart, take, k).visited;
    var end := RestOfScan(tables, table, lookbackStart, runStart, take, k);
    if end <= n {
      DoneStays(tables, lookbackStart, runStart, take, end, n);
    } else {
      DoneStays(tables, lookbackStart, runStart, take, n, end);
    }
    var visited := Scanned(tables, lookbackStart, runStart, take, n).visited;
    var rest := visited[|earlier|..];
    ScannedAscends(tables, lookbackStart, runStart, take, n);
    TailAscends(visited, |earlier|);
    DistinctIds(table, rest);
    CursorIsInWindow(tables, lookbackStart, runStart, take, k);
    RestNames(earlier, visited, table, lookbackStart, runStart, earlier[i].id);
  }

  lemma {:induction false} RestNames(earlier: seq<Row>, visited: seq<Row>, table: seq<Row>, lookbackStart: int, runStart: int, id: int)
    requires IsRest(earlier, visited, table, lookbackStart, runStart)
    requires earlier != [] && lookbackStart <= earlier[|earlier| - 1].updatedAt
    ensures Names(visited[|earlier|..], id) <==> IsAheadAgain(table, id, NextReconCursor(earlier).value, runStart)
  {
    hide ReconBatchWhere;
    var cursor, rest := NextReconCursor(earlier).value, visited[|earlier|..];
    forall r: Row {
      PastCursor(r, lookbackStart, runStart, cursor);
    }
    if Names(rest, id) {
      var j :| 0 <= j < |rest| && rest[j].id == id;
      assert rest[j] in rest;
    }
    if IsAheadAgain(table, id, cursor, runStart) {
      var r :| r in table && r.id == id && !r.isDeleted && Before(cursor, Key(r)) && r.updatedAt <= runStart;
      assert r in rest;
      var j :| 0 <= j < |rest| && rest[j] == r;
      assert rest[j].id == id;
    }
  }

  lemma {:induction false} PastCursor(r: Row, lookbackStart: int, runStart: int, cursor: Cursor)
    requires lookbackStart <= cursor.updatedAt
    ensures ReconBatchWhere(r, lookbackStart, runStart, Some(cursor)) <==>
      !r.isDeleted && Before(cursor, Key(r)) && r.updatedAt <= runStart
  {}

  lemma {:induction false} TailAscends(rows: seq<Row>, k: nat)
    requires Ascending(rows) && k <= |rows|
    ensures Ascending(rows[k..])
  {}

  lemma {:induction false} CursorIsInWindow(tables: nat -> seq<Row>, lookbackStart: int, runStart: int, take: nat, n: nat)
    requires forall k: nat :: UniqueIds(tables(k))
    ensures var visited := Scanned(tables, lookbackStart, runStart, take, n).visited;
      visited != [] ==> lookbackStart <= visited[|visited| - 1].updatedAt
  {
    hide Page, UniqueIds;
    if n > 0 {
      CursorIsInWindow(tables, lookbackStart, runStart, take, n - 1);
      var before := Scanned(tables, lookbackStart, runStart, take, n - 1);
      var page := Page(tables(n - 1), lookbackStart, runStart, NextReconCursor(before.visited), take);
      QueryIsPage(tables(n - 1), lookbackStart, runStart, NextReconCursor(before.visited), take);
      if page != [] {
        assert page[|page| - 1] in page;
      }
    }
  }

  // ---------------------------------------------------------------------------
  // The scan of a run
  // ---------------------------------------------------------------------------

  /** The table as each page reads it: a row changed or added since the page before carries a stamp after the run's start. */
  ghost predicate ChangesAreStampedLater(tables: nat -> seq<Row>, runStart: int) {
    forall k: nat, r | r in tables(k + 1) && r.updatedAt <= runStart :: r in tables(k)
  }

  ghost predicate Unchanged(tables: nat -> seq<Row>, r: Row, queries: nat) {
    forall k: nat | k < queries :: r in tables(k)
  }

  ghost function MatchSet(table: seq<Row>, lookbackStart: int, runStart: int, cursor: Option<Cursor>): set<Row> {
    set r | r in table && ReconBatchWhere(r, lookbackStart, runStart, cursor)
  }

  /** Fewer rows are left after every page. */
  lemma {:induction false} PageShrinks(
      table: seq<Row>, later: seq<Row>, page: seq<Row>, lookbackStart: int, runStart: int, cursor: Option<Cursor>, take: nat)
    requires IsPage(page, table, lookbackStart, runStart, cursor, take) && page != []
    requires forall r | r in later && r.updatedAt <= runStart :: r in table
    ensures MatchSet(later, lookbackStart, runStart, NextReconCursor(page)) < MatchSet(table, lookbackStart, runStart, cursor)
  {
    var last := page[|page| - 1];
    assert last in page;
    assert last in MatchSet(table, lookbackStart, runStart, cursor);
  }

  lemma {:induction false} StillInFirst(tables: nat -> seq<Row>, runStart: int, k: nat, r: Row)
    requires ChangesAreStampedLater(tables, runStart) && r in tables(k) && r.updatedAt <= runStart
    ensures r in tables(0)
  {
    if k > 0 {
      StillInFirst(tables, runStart, k - 1, r);
    }
  }

  /**
   * Page after page until one is short: the scan ends, visits no product
   * twice, visits only rows that were in the window when it started, and
   * visits each of those that stays as it was.
   */
  method RunReconciliation(tables: nat -> seq<Row>, lookbackStart: int, runStart: int, batchSize: nat)
    returns (visited: seq<Row>, ghost queries: nat)
    requires forall k: nat :: UniqueIds(tables(k))
    requires ChangesAreStampedLater(tables, runStart)
    ensures Scanned(tables, lookbackStart, runStart, batchSize, queries) == Progress(visited, true)
    ensures VisitsOnce(visited)
    ensures forall r | r in visited :: r in tables(0) && InWindow(r, lookbackStart, runStart)
    ensures batchSize > 0 ==>
      forall r | r in tables(0) && InWindow(r, lookbackStart, runStart) && Unchanged(tables, r, queries) :: r in visited
    ensures batchSize == 0 ==> visited == []
  {
    hide Page, InWindow, Scanned, MatchSet;
    visited, queries := [], 0;
    var cursor: Option<Cursor>, k := None, 0;
    NothingScanned(tables, lookbackStart, runStart, batchSize);
    while true
      invariant cursor == NextReconCursor(visited) && queries == k && Ascending(visited)
      invariant Scanned(tables, lookbackStart, runStart, batchSize, k) == Progress(visited, false)
      invariant batchSize == 0 ==> visited == []
      invariant forall r | r in visited :: r in tables(0) && InWindow(r, lookbackStart, runStart)
      invariant forall r | r in tables(0) && InWindow(r, lookbackStart, runStart) && Unchanged(tables, r, k) ::
        r in visited || ReconBatchWhere(r, lookbackStart, runStart, cursor)
      decreases MatchSet(tables(k), lookbackStart, runStart, cursor)
    {
      var page := Page(tables(k), lookbackStart, runStart, cursor, batchSize);
      QueryIsPage(tables(k), lookbackStart, runStart, cursor, batchSize);
      OnePageMore(tables, lookbackStart, runStart, batchSize, k);
      if page == [] {
        queries := k + 1;
        assert visited + [] == visited;
        break;
      }
      forall r | r in page ensures r in tables(0) && InWindow(r, lookbackStart, runStart) {
        WindowIsStamped(r, lookbackStart, runStart);
        StillInFirst(tables, runStart, k, r);
      }
      PagesAscend(visited, page, tables(k), lookbackStart, runStart, batchSize);
      PageShrinks(tables(k), tables(k + 1), page, lookbackStart, runStart, cursor, batchSize);
      Remaining(tables, visited, page, lookbackStart, runStart, batchSize, k);
      visited := visited + page;
      cursor := NextReconCursor(page);
      k := k + 1;
      queries := k;
      if |page| < batchSize {
        break;
      }
    }
    DistinctIds(tables(0), visited);
  }

  lemma {:induction false} NothingScanned(tables: nat -> seq<Row>, lookbackStart: int, runStart: int, take: nat)
    ensures Scanned(tables, lookbackStart, runStart, take, 0) == Progress([], false)
  {}

  lemma {:induction false} OnePageMore(tables: nat -> seq<Row>, lookbackStart: int, runStart: int, take: nat, k: nat)
    requires !Scanned(tables, lookbackStart, runStart, take, k).isDone
    ensures var before := Scanned(tables, lookbackStart, runStart, take, k);
      var page := Page(tables(k), lookbackStart, runStart, NextReconCursor(before.visited), take);
      Scanned(tables, lookbackStart, runStart, take, k + 1) == Progress(before.visited + page, page == [] || |page| < take)
  {
    hide Page;
  }

  lemma {:induction false} WindowIsStamped(r: Row, lookbackStart: int, runStart: int)
    requires InWindow(r, lookbackStart, runStart)
    ensures r.updatedAt <= runStart
  {}

  /** Rows not visited by a page still lie ahead of it. */
  lemma {:induction false} Remaining(
      tables: nat -> seq<Row>, visited: seq<Row>, page: seq<Row>, lookbackStart: int, runStart: int, take: nat, k: nat)
    requires page != [] && IsPage(page, tables(k), lookbackStart, runStart, NextReconCursor(visited), take)
    requires forall r | r in tables(0) && InWindow(r, lookbackStart, runStart) && Unchanged(tables, r, k) ::
      r in visited || ReconBatchWhere(r, lookbackStart, runStart, NextReconCursor(visited))
    ensures forall r | r in tables(0) && InWindow(r, lookbackStart, runStart) && Unchanged(tables, r, k + 1) ::
      r in visited + page || (|page| == take && ReconBatchWhere(r, lookbackStart, runStart, NextReconCursor(visited + page)))
  {
    hide InWindow;
    forall r | r in tables(0) && InWindow(r, lookbackStart, runStart) && Unchanged(tables, r, k + 1) && r !in visited && r !in page
      ensures |page| == take && ReconBatchWhere(r, lookbackStart, runStart, NextReconCursor(visited + page))
    {
      assert Unchanged(tables, r, k);
      assert r in tables(k);
    }
  }

  /** Rows of one table in ascending order name each product once. */
  lemma {:induction false} DistinctIds(table: seq<Row>, visited: seq<Row>)
    requires UniqueIds(table) && Ascending(visited) && forall r | r in visited :: r in table
    ensures forall i, j | 0 <= i < j < |visited| :: visited[i].id != visited[j].id
  {
    forall i, j | 0 <= i < j < |visited| ensures visited[i].id != visited[j].id {
      assert visited[i] in visited && visited[j] in visited;
      var a :| 0 <= a < |table| && table[a] == visited[i];
      var b :| 0 <= b < |table| && table[b] == visited[j];
      assert a != b;
    }
  }

  /** Two pages of one row each that show the same product, the table changing between them only by stamps from the run's start on. */
  ghost predicate VisitsTwice(first: seq<Row>, second: seq<Row>, runStart: int) {
    && UniqueIds(first) && UniqueIds(second)
    && (forall r | r in second && r.updatedAt < runStart :: r in first)
    && var page := Page(first, 0, runStart, None, 1);
    && |page| == 1
    && var next := Page(second, 0, runStart, NextReconCursor(page), 1);
    |next| == 1 && next[0].id == page[0].id
  }

  /**
   * A change stamped at the run's very start is enough to visit a product
   * twice: the second page reads it again, past the first page's cursor.
   */
  lemma {:induction false} StampAtRunStartIsVisitedTwice()
    ensures exists first: seq<Row>, second: seq<Row>, runStart: int :: VisitsTwice(first, second, runStart)
  {
    var stale, newer := Row(1, 5, false), Row(1, 10, false);
    OneRow(stale, 0, 10, None);
    OneRow(newer, 0, 10, Some(Key(stale)));
    var first, second := [stale], [newer];
    assert Page(first, 0, 10, None, 1) == first;
    assert NextReconCursor(first) == Some(Key(stale));
    assert Page(second, 0, 10, NextReconCursor(first), 1) == second;
    assert VisitsTwice(first, second, 10);
  }

  lemma {:induction false} OneRow(r: Row, lookbackStart: int, runStart: int, cursor: Option<Cursor>)
    requires ReconBatchWhere(r, lookbackStart, runStart, cursor)
    ensures Matching([r], lookbackStart, runStart, cursor) == [r]
  {
    hide ReconBatchWhere;
    assert [r][..|[r]| - 1] == [];
    assert [] + [r] == [r];
  }
}
