/** Paged listings (list and list_executions in
    src/features/schedules/repository.rs). A page asks for one row more than the
    limit; the extra row is popped, and its id is the cursor of the next page,
    which starts strictly after it. */
module CursorWalk {
  import opened Wrappers
  import opened Arithmetic

  datatype Row = Row(id: int, organization: string, tenant: string, status: string, deleted: bool)

  /** Schedules are listed by ascending id, executions by descending id. */
  datatype Order = Ascending | Descending

  predicate Before(o: Order, a: int, b: int) {
    match o
    case Ascending => a < b
    case Descending => b < a
  }

  predicate Sorted(o: Order, rows: seq<Row>) {
    forall i, j | 0 <= i < j < |rows| :: Before(o, rows[i].id, rows[j].id)
  }

  /** The WHERE clause without its cursor: whatever filters the request has. */
  function Matching(table: seq<Row>, keep: Row -> bool): (rows: seq<Row>)
    ensures forall r :: r in rows <==> r in table && keep(r)
  {
    if table == [] then []
    else (if keep(table[0]) then [table[0]] else []) + Matching(table[1..], keep)
  }

  lemma {:induction false} MatchingIsSorted(o: Order, table: seq<Row>, keep: Row -> bool)
    requires Sorted(o, table)
    ensures Sorted(o, Matching(table, keep))
  {
    if table == [] {
    } else {
      var rest := Matching(table[1..], keep);
      MatchingIsSorted(o, table[1..], keep);
      forall r | r in rest
        ensures Before(o, table[0].id, r.id)
      {
        var i :| 0 <= i < |table| - 1 && table[1..][i] == r;
        assert table[i + 1] == r;
      }
    }
  }

  /** The cursor's part of the WHERE clause. */
  function Past(o: Order, rows: seq<Row>, cursor: Option<int>): (rest: seq<Row>) {
    if rows == [] || cursor.None? then rows
    else (if Before(o, cursor.value, rows[0].id) then [rows[0]] else []) + Past(o, rows[1..], cursor)
  }

  function Take(rows: seq<Row>, n: nat): seq<Row> {
    if |rows| <= n then rows else rows[..n]
  }

  datatype Page = Page(rows: seq<Row>, next: Option<int>)

  function PageOf(rest: seq<Row>, limit: nat): Page {
    if |rest| > limit then Page(rest[..limit], Some(rest[limit].id)) else Page(rest, None)
  }

  /** One call, as written: LIMIT limit + 1, then pop. */
  method List(o: Order, table: seq<Row>, keep: Row -> bool, limit: nat, cursor: Option<int>) returns (page: Page)
    ensures page == PageOf(Past(o, Matching(table, keep), cursor), limit)
    ensures |page.rows| <= limit && (page.next.Some? ==> |page.rows| == limit)
    ensures o == Ascending && Increasing(table) ==> PageUpwards(table, keep, cursor, page)
    ensures o == Descending && Decreasing(table) ==> PageDownwards(table, keep, cursor, page)
  {
    var rows := Take(Past(o, Matching(table, keep), cursor), limit + 1);
    var next := None;
    if |rows| > limit {
      next := Some(rows[|rows| - 1].id);
      rows := rows[..|rows| - 1];
    }
    page := Page(rows, next);
    if o == Ascending && Increasing(table) {
      ListsUpwards(table, keep, limit, cursor);
    }
    if o == Descending && Decreasing(table) {
      ListsDownwards(table, keep, limit, cursor);
    }
  }

  predicate Increasing(rows: seq<Row>) {
    forall i, j | 0 <= i < j < |rows| :: rows[i].id < rows[j].id
  }

  predicate Decreasing(rows: seq<Row>) {
    forall i, j | 0 <= i < j < |rows| :: rows[i].id > rows[j].id
  }

  /** `id > cursor ORDER BY id ASC`: the rows shown are matching rows above the
      cursor and below the next one, in order; every other matching row is at or
      below the cursor, or at or above the next. */
  ghost predicate PageUpwards(table: seq<Row>, keep: Row -> bool, cursor: Option<int>, page: Page) {
    && Increasing(page.rows)
    && (forall r | r in page.rows ::
          && r in table && keep(r) && (cursor.Some? ==> r.id > cursor.value)
          && (page.next.Some? ==> r.id < page.next.value))
    && (forall r | r in table && keep(r) && r !in page.rows ::
          (cursor.Some? && r.id <= cursor.value) || (page.next.Some? && r.id >= page.next.value))
  }

  /** `id < cursor ORDER BY id DESC`: the mirror image. */
  ghost predicate PageDownwards(table: seq<Row>, keep: Row -> bool, cursor: Option<int>, page: Page) {
    && Decreasing(page.rows)
    && (forall r | r in page.rows ::
          && r in table && keep(r) && (cursor.Some? ==> r.id < cursor.value)
          && (page.next.Some? ==> r.id > page.next.value))
    && (forall r | r in table && keep(r) && r !in page.rows ::
          (cursor.Some? && r.id >= cursor.value) || (page.next.Some? && r.id <= page.next.value))
  }

  lemma {:induction false} PastIs(o: Order, rows: seq<Row>, cursor: Option<int>)
    ensures forall r :: r in Past(o, rows, cursor) <==>
                        r in rows && (cursor.Some? ==> Before(o, cursor.value, r.id))
  {
    if rows == [] || cursor.None? {
    } else {
      PastIs(o, rows[1..], cursor);
    }
  }

  lemma InPrefix(rows: seq<Row>, n: nat)
    requires n <= |rows|
    ensures forall i | 0 <= i < n :: rows[i] in rows[..n]
  {
    assert forall i | 0 <= i < n :: rows[..n][i] == rows[i];
  }

  /** A page of a sorted listing: what it shows, and what it does not. */
  lemma PageShows(o: Order, rows: seq<Row>, limit: nat, cursor: Option<int>)
    requires Sorted(o, rows)
    ensures var rest := Past(o, rows, cursor);
            var page := PageOf(rest, limit);
            && Sorted(o, page.rows)
            && (forall r | r in page.rows :: r in rest && (page.next.Some? ==> Before(o, r.id, page.next.value)))
            && (forall r | r in rest && r !in page.rows :: page.next.Some? && !Before(o, r.id, page.next.value))
  {
    var rest := Past(o, rows, cursor);
    var k := PastIsSuffix(o, rows, cursor);
    assert Sorted(o, rest);
    if |rest| > limit {
      forall r | r in rest && r !in rest[..limit]
        ensures !Before(o, r.id, rest[limit].id)
      {
        var i :| 0 <= i < |rest| && rest[i] == r;
        InPrefix(rest, limit);
      }
    }
  }

  lemma ListsUpwards(table: seq<Row>, keep: Row -> bool, limit: nat, cursor: Option<int>)
    requires Increasing(table)
    ensures PageUpwards(table, keep, cursor, PageOf(Past(Ascending, Matching(table, keep), cursor), limit))
  {
    assert Sorted(Ascending, table);
    MatchingIsSorted(Ascending, table, keep);
    PastIs(Ascending, Matching(table, keep), cursor);
    PageShows(Ascending, Matching(table, keep), limit, cursor);
  }

  lemma ListsDownwards(table: seq<Row>, keep: Row -> bool, limit: nat, cursor: Option<int>)
    requires Decreasing(table)
    ensures PageDownwards(table, keep, cursor, PageOf(Past(Descending, Matching(table, keep), cursor), limit))
  {
    assert Sorted(Descending, table);
    MatchingIsSorted(Descending, table, keep);
    PastIs(Descending, Matching(table, keep), cursor);
    PageShows(Descending, Matching(table, keep), limit, cursor);
  }

  // --- The cursor finds its place ---

  lemma {:induction false} PastSkips(o: Order, rows: seq<Row>, k: nat, c: int)
    requires Sorted(o, rows) && k <= |rows|
    requires forall i | 0 <= i < k :: !Before(o, c, rows[i].id)
    requires forall i | k <= i < |rows| :: Before(o, c, rows[i].id)
    ensures Past(o, rows, Some(c)) == rows[k..]
  {
    if rows == [] {
    } else {
      PastSkips(o, rows[1..], if k > 0 then k - 1 else 0, c);
    }
  }

  lemma PastCursorRow(o: Order, rows: seq<Row>, k: nat)
    requires Sorted(o, rows) && k < |rows|
    ensures Past(o, rows, Some(rows[k].id)) == rows[k + 1..]
  {
    PastSkips(o, rows, k + 1, rows[k].id);
  }

  lemma {:induction false} PastIsSuffix(o: Order, rows: seq<Row>, cursor: Option<int>) returns (k: nat)
    requires Sorted(o, rows)
    ensures k <= |rows| && Past(o, rows, cursor) == rows[k..]
  {
    if rows == [] || cursor.None? {
      k := 0;
    } else if Before(o, cursor.value, rows[0].id) {
      assert forall i | 0 <= i < |rows| :: Before(o, cursor.value, rows[i].id);
      PastSkips(o, rows, 0, cursor.value);
      k := 0;
    } else {
      var m := PastIsSuffix(o, rows[1..], cursor);
      k := m + 1;
    }
  }

  // --- Following next_cursor to the end ---

  lemma NextPageIsShorter(o: Order, rows: seq<Row>, limit: nat, cursor: Option<int>)
    requires Sorted(o, rows) && |Past(o, rows, cursor)| > limit
    ensures var rest := Past(o, rows, cursor);
            Past(o, rows, Some(rest[limit].id)) == rest[limit + 1..]
  {
    var k := PastIsSuffix(o, rows, cursor);
    PastCursorRow(o, rows, k + limit);
  }

  /** The pages a client sees from `cursor` on. */
  ghost function Walk(o: Order, rows: seq<Row>, limit: nat, cursor: Option<int>): (pages: seq<Page>)
    requires Sorted(o, rows)
    ensures |pages| > 0
    decreases |Past(o, rows, cursor)|
  {
    var rest := Past(o, rows, cursor);
    var page := PageOf(rest, limit);
    if page.next.None? then [page]
    else
      NextPageIsShorter(o, rows, limit, cursor);
      [page] + Walk(o, rows, limit, page.next)
  }

  /** The same pages, by cutting the listing up. */
  function Pages(rest: seq<Row>, limit: nat): (pages: seq<Page>)
    ensures |pages| > 0
    decreases |rest|
  {
    if |rest| <= limit then [PageOf(rest, limit)] else [PageOf(rest, limit)] + Pages(rest[limit + 1..], limit)
  }

  /** The query with a cursor finds its place again, so the walk cuts the listing
      into pages. */
  lemma {:induction false} WalkCuts(o: Order, rows: seq<Row>, limit: nat, cursor: Option<int>)
    requires Sorted(o, rows)
    ensures Walk(o, rows, limit, cursor) == Pages(Past(o, rows, cursor), limit)
    decreases |Past(o, rows, cursor)|
  {
    var rest := Past(o, rows, cursor);
    if |rest| > limit {
      NextPageIsShorter(o, rows, limit, cursor);
      WalkCuts(o, rows, limit, Some(rest[limit].id));
    }
  }

  lemma {:induction false} PageCount(rest: seq<Row>, limit: nat)
    ensures |Pages(rest, limit)| == |rest| / (limit + 1) + 1
    decreases |rest|
  {
    if |rest| > limit {
      PageCount(rest[limit + 1..], limit);
      QuotientStep(|rest|, limit + 1);
    } else {
      QuotientIsUnique(|rest|, limit + 1, 0, |rest|);
    }
  }

  /** The page that starts at position `at`, and its cursor. */
  ghost predicate IsPage(rest: seq<Row>, limit: nat, at: nat, page: Page) {
    if at + limit < |rest| then page == Page(rest[at..at + limit], Some(rest[at + limit].id))
    else at <= |rest| && page == Page(rest[at..], None)
  }

  lemma ShiftPage(rest: seq<Row>, limit: nat, at: nat, page: Page)
    requires |rest| > limit && IsPage(rest[limit + 1..], limit, at, page)
    ensures IsPage(rest, limit, limit + 1 + at, page)
  {
  }

  lemma {:induction false} PageIs(rest: seq<Row>, limit: nat, p: nat, at: nat)
    requires p < |Pages(rest, limit)| && at == p * (limit + 1)
    ensures IsPage(rest, limit, at, Pages(rest, limit)[p])
    decreases p
  {
    if p == 0 {
      assert rest[0..] == rest;
    } else {
      OneMore(p, limit + 1);
      PageIs(rest[limit + 1..], limit, p - 1, at - limit - 1);
      ShiftPage(rest, limit, at - limit - 1, Pages(rest, limit)[p]);
    }
  }

  /** The row a cursor names, and the pages with those rows put back. */
  function CursorRow(rows: seq<Row>, next: Option<int>): seq<Row> {
    if rows == [] || next.None? then []
    else if rows[0].id == next.value then [rows[0]]
    else CursorRow(rows[1..], next)
  }

  lemma {:induction false} CursorRowIs(o: Order, rows: seq<Row>, k: nat)
    requires Sorted(o, rows) && k < |rows|
    ensures CursorRow(rows, Some(rows[k].id)) == [rows[k]]
  {
    if k == 0 {
    } else {
      CursorRowIs(o, rows[1..], k - 1);
    }
  }

  function Glued(rows: seq<Row>, pages: seq<Page>): seq<Row> {
    if pages == [] then [] else pages[0].rows + CursorRow(rows, pages[0].next) + Glued(rows, pages[1..])
  }

  lemma GluedCons(rows: seq<Row>, page: Page, pages: seq<Page>)
    ensures Glued(rows, [page] + pages) == page.rows + CursorRow(rows, page.next) + Glued(rows, pages)
  {
  }

  lemma GluedOnce(o: Order, rows: seq<Row>, limit: nat, k: nat)
    requires Sorted(o, rows) && k + limit < |rows|
    requires Glued(rows, Pages(rows[k + limit + 1..], limit)) == rows[k + limit + 1..]
    ensures Glued(rows, Pages(rows[k..], limit)) == rows[k..]
  {
    var rest, tail := rows[k..], rows[k + limit + 1..];
    assert rest[limit + 1..] == tail;
    CursorRowIs(o, rows, k + limit);
    GluedCons(rows, PageOf(rest, limit), Pages(tail, limit));
    assert rest == rest[..limit] + [rest[limit]] + tail;
  }

  lemma {:induction false} GluedFrom(o: Order, rows: seq<Row>, limit: nat, k: nat)
    requires Sorted(o, rows) && k <= |rows|
    ensures Glued(rows, Pages(rows[k..], limit)) == rows[k..]
    decreases |rows| - k
  {
    var rest := rows[k..];
    if |rest| > limit {
      GluedFrom(o, rows, limit, k + limit + 1);
      GluedOnce(o, rows, limit, k);
    } else {
      GluedCons(rows, PageOf(rest, limit), []);
    }
  }

  /** Every table, every filter, either direction, every limit: the walk has
      floor(n / (limit + 1)) + 1 pages, and the pages with each cursor row put
      back between them are the listing. */
  lemma {:induction false} WalkRebuildsListing(o: Order, table: seq<Row>, keep: Row -> bool, limit: nat)
    requires Sorted(o, table)
    ensures var rows := Matching(table, keep);
            && Sorted(o, rows)
            && (if o == Ascending then Increasing(rows) else Decreasing(rows))
            && |Walk(o, rows, limit, None)| == |rows| / (limit + 1) + 1
            && Glued(rows, Walk(o, rows, limit, None)) == rows
  {
    var rows := Matching(table, keep);
    MatchingIsSorted(o, table, keep);
    WalkCuts(o, rows, limit, None);
    PageCount(rows, limit);
    assert rows[0..] == rows;
    GluedFrom(o, rows, limit, 0);
  }

  // --- Which rows a client sees ---

  ghost predicate Shown(pages: seq<Page>, r: Row) {
    exists p :: 0 <= p < |pages| && r in pages[p].rows
  }

  lemma OffBoundary(limit: nat, p: nat, at: nat, j: nat)
    requires at == p * (limit + 1) && j < limit
    ensures (at + j) % (limit + 1) != limit
  {
    QuotientIsUnique(at + j, limit + 1, p, j);
  }

  lemma ShownOnPage(o: Order, rows: seq<Row>, limit: nat, i: nat, at: nat, page: Page)
    requires Sorted(o, rows) && i < |rows| && IsPage(rows, limit, at, page) && rows[i] in page.rows
    ensures at <= i < at + limit
  {
  }

  lemma ShownIsOffBoundary(o: Order, rows: seq<Row>, limit: nat, i: nat, p: nat, at: nat)
    requires Sorted(o, rows) && i < |rows| && p < |Pages(rows, limit)| && rows[i] in Pages(rows, limit)[p].rows
    requires at == p * (limit + 1)
    ensures i % (limit + 1) != limit
  {
    PageIs(rows, limit, p, at);
    ShownOnPage(o, rows, limit, i, at, Pages(rows, limit)[p]);
    OffBoundary(limit, p, at, i - at);
  }

  lemma OffBoundaryIsShown(rows: seq<Row>, limit: nat, i: nat)
    requires i < |rows| && i % (limit + 1) != limit
    ensures Shown(Pages(rows, limit), rows[i])
  {
    var p := i / (limit + 1);
    var at := p * (limit + 1);
    PageCount(rows, limit);
    QuotientsKeepOrder(i, |rows|, limit + 1);
    PageIs(rows, limit, p, at);
    var page := Pages(rows, limit)[p];
    assert i - at < limit;
    assert page.rows[i - at] == rows[i];
  }

  lemma ShownExactlyOffBoundary(o: Order, rows: seq<Row>, limit: nat, i: nat)
    requires Sorted(o, rows) && i < |rows|
    ensures Shown(Pages(rows, limit), rows[i]) <==> i % (limit + 1) != limit
  {
    var pages := Pages(rows, limit);
    if Shown(pages, rows[i]) {
      var p: nat :| p < |pages| && rows[i] in pages[p].rows;
      ShownIsOffBoundary(o, rows, limit, i, p, p * (limit + 1));
    }
    if i % (limit + 1) != limit {
      OffBoundaryIsShown(rows, limit, i);
    }
  }

  /** A row appears in the walk exactly when its position is not one of the
      boundaries, so each page boundary hides its cursor row and no other. */
  lemma RowIsShownUnlessAtBoundary(o: Order, rows: seq<Row>, limit: nat, i: nat)
    requires Sorted(o, rows) && i < |rows|
    ensures Shown(Walk(o, rows, limit, None), rows[i]) <==> i % (limit + 1) != limit
  {
    WalkCuts(o, rows, limit, None);
    ShownExactlyOffBoundary(o, rows, limit, i);
  }

  /** So a client that follows the cursors sees the whole listing exactly when
      it fits on one page. */
  lemma WalkIsCompleteIffOnePage(o: Order, rows: seq<Row>, limit: nat)
    requires Sorted(o, rows)
    ensures (forall i | 0 <= i < |rows| :: Shown(Walk(o, rows, limit, None), rows[i])) <==> |rows| <= limit
  {
    if |rows| > limit {
      QuotientIsUnique(limit, limit + 1, 0, limit);
      RowIsShownUnlessAtBoundary(o, rows, limit, limit);
    } else {
      forall i | 0 <= i < |rows|
        ensures Shown(Walk(o, rows, limit, None), rows[i])
      {
        QuotientIsUnique(i, limit + 1, 0, i);
        RowIsShownUnlessAtBoundary(o, rows, limit, i);
      }
    }
  }
}
