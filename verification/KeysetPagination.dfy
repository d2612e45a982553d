/**
 Keyset pagination by (created_at, id): newest first over audit logs, oldest first
 over connections. Rows carry microseconds; a cursor keeps only the millisecond.
 A table is the sequence of matching rows in the listing's own order.
 */
module KeysetPagination {
  import opened Wrappers

  const MICROS_PER_MILLI := 1000

  datatype Key = Key(at: nat, id: nat)

  datatype Direction = Ascending | Descending

  predicate Less(a: Key, b: Key) {
    a.at < b.at || (a.at == b.at && a.id < b.id)
  }

  predicate Precedes(d: Direction, a: Key, b: Key) {
    if d == Ascending then Less(a, b) else Less(b, a)
  }

  ghost predicate Sorted(d: Direction, rows: seq<Key>) {
    forall i, j {:trigger Precedes(d, rows[i], rows[j])} | 0 <= i < j < |rows| :: Precedes(d, rows[i], rows[j])
  }

  function Truncate(at: nat): nat {
    at - at % MICROS_PER_MILLI
  }

  predicate Aligned(k: Key) {
    k.at % MICROS_PER_MILLI == 0
  }

  /** The cursor built from a row. */
  function Cut(k: Key): Key {
    Key(Truncate(k.at), k.id)
  }

  function RowsAfter(d: Direction, rows: seq<Key>, cursor: Option<Key>): seq<Key> {
    if rows == [] then []
    else
      var rest := RowsAfter(d, rows[1..], cursor);
      if cursor.Some? && !Precedes(d, cursor.value, rows[0]) then rest else [rows[0]] + rest
  }

  datatype Page = Page(items: seq<Key>, next: Option<Key>, hasMore: bool)

  /** One page: a row beyond the limit is read to learn whether there are more. */
  function FindPage(d: Direction, rows: seq<Key>, cursor: Option<Key>, limit: nat): Page {
    var after := RowsAfter(d, rows, cursor);
    var read := if |after| > limit + 1 then after[..limit + 1] else after;
    var hasMore := |read| > limit;
    var items := if hasMore then read[..limit] else read;
    Page(items, if hasMore && items != [] then Some(Cut(items[|items| - 1])) else None, hasMore)
  }

  /** All the items of a walk, and whether it reached a page without a cursor. */
  datatype Walked = Walked(items: seq<Key>, finished: bool)

  /** Follow the cursors; tables[i] is what the table holds when page i is read. */
  function Walk(d: Direction, tables: seq<seq<Key>>, cursor: Option<Key>, limit: nat): Walked
    decreases |tables|
  {
    if tables == [] then Walked([], false)
    else
      var page := FindPage(d, tables[0], cursor, limit);
      if page.next.None? then Walked(page.items, true)
      else
        var rest := Walk(d, tables[1..], page.next, limit);
        Walked(page.items + rest.items, rest.finished)
  }

  // ------------------------------------------------------------ one page

  lemma SortedCons(d: Direction, first: Key, rest: seq<Key>)
    requires Sorted(d, rest) && forall r | r in rest :: Precedes(d, first, r)
    ensures Sorted(d, [first] + rest)
  {
    var all := [first] + rest;
    forall i, j | 0 <= i < j < |all| ensures Precedes(d, all[i], all[j]) {
      if i == 0 {
        assert rest[j - 1] in rest;
      } else {
        assert Precedes(d, rest[i - 1], rest[j - 1]);
      }
    }
  }

  lemma SortedTail(d: Direction, rows: seq<Key>)
    requires Sorted(d, rows) && rows != []
    ensures Sorted(d, rows[1..]) && forall r | r in rows[1..] :: Precedes(d, rows[0], r)
  {
    var tail := rows[1..];
    forall i, j | 0 <= i < j < |tail| ensures Precedes(d, tail[i], tail[j]) {
      assert Precedes(d, rows[i + 1], rows[j + 1]);
    }
    forall r | r in tail ensures Precedes(d, rows[0], r) {
      var i :| 0 <= i < |tail| && tail[i] == r;
      assert Precedes(d, rows[0], rows[i + 1]);
    }
  }

  /** A page query sees the rows after its cursor and none other. */
  lemma {:induction false} RowsAfterIsFilter(d: Direction, rows: seq<Key>, cursor: Option<Key>)
    ensures forall r :: r in RowsAfter(d, rows, cursor) <==>
                        r in rows && (cursor.Some? ==> Precedes(d, cursor.value, r))
  {
    if rows != [] {
      RowsAfterIsFilter(d, rows[1..], cursor);
      assert rows == [rows[0]] + rows[1..];
    }
  }

  /** It sees them in the table's order. */
  lemma {:induction false} RowsAfterKeepsOrder(d: Direction, rows: seq<Key>, cursor: Option<Key>)
    requires Sorted(d, rows)
    ensures Sorted(d, RowsAfter(d, rows, cursor))
  {
    if rows != [] {
      var rest := RowsAfter(d, rows[1..], cursor);
      SortedTail(d, rows);
      RowsAfterKeepsOrder(d, rows[1..], cursor);
      RowsAfterIsFilter(d, rows[1..], cursor);
      SortedCons(d, rows[0], rest);
    }
  }

  lemma PageIsPrefix(d: Direction, rows: seq<Key>, cursor: Option<Key>, limit: nat)
    requires limit >= 1
    ensures var after, page := RowsAfter(d, rows, cursor), FindPage(d, rows, cursor, limit);
            && page.items <= after
            && page.hasMore == (|after| > limit)
            && page.items == (if page.hasMore then after[..limit] else after)
            && page.next == (if page.hasMore then Some(Cut(after[limit - 1])) else None)
  {
    var after := RowsAfter(d, rows, cursor);
    if |after| > limit + 1 {
      assert after[..limit + 1][..limit] == after[..limit];
    }
  }

  // --------------------------------------------- a walk over a changing table

  ghost predicate Walkable(d: Direction, tables: seq<seq<Key>>) {
    forall t | t in tables :: Sorted(d, t) && forall r | r in t :: Aligned(r)
  }

  ghost predicate AllAfter(d: Direction, cursor: Option<Key>, rows: seq<Key>) {
    cursor.Some? ==> forall r | r in rows :: Precedes(d, cursor.value, r)
  }

  lemma SortedConcat(d: Direction, xs: seq<Key>, last: Key, ys: seq<Key>)
    requires Sorted(d, xs) && Sorted(d, ys) && xs != [] && xs[|xs| - 1] == last && AllAfter(d, Some(last), ys)
    ensures Sorted(d, xs + ys)
  {
    forall i, j | 0 <= i < j < |xs + ys| ensures Precedes(d, (xs + ys)[i], (xs + ys)[j]) {
      if i < |xs| <= j {
        assert ys[j - |xs|] in ys;
        assert Precedes(d, last, ys[j - |xs|]);
        assert i < |xs| - 1 ==> Precedes(d, xs[i], last);
      }
    }
  }

  /** A page holds rows after its cursor, in order, up to the last row before its own cursor. */
  lemma PageCovers(d: Direction, rows: seq<Key>, cursor: Option<Key>, limit: nat)
    requires Sorted(d, rows) && (forall r | r in rows :: Aligned(r)) && limit >= 1
    ensures var page := FindPage(d, rows, cursor, limit);
            && Sorted(d, page.items) && AllAfter(d, cursor, page.items)
            && (forall r | r in page.items :: r in rows)
            && (page.next.Some? ==> page.items != [] && page.next.value == page.items[|page.items| - 1])
  {
    RowsAfterIsFilter(d, rows, cursor);
    RowsAfterKeepsOrder(d, rows, cursor);
    PageIsPrefix(d, rows, cursor, limit);
    var after, page := RowsAfter(d, rows, cursor), FindPage(d, rows, cursor, limit);
    forall r | r in page.items ensures r in after {}
    if page.next.Some? {
      assert after[limit - 1] in after;
    }
  }

  /** What a page leaves out comes after its cursor. */
  lemma PageLeavesOutOnlyLater(d: Direction, rows: seq<Key>, cursor: Option<Key>, limit: nat, r: Key)
    requires Sorted(d, rows) && (forall x | x in rows :: Aligned(x)) && limit >= 1
    requires r in rows && (cursor.Some? ==> Precedes(d, cursor.value, r))
    ensures var page := FindPage(d, rows, cursor, limit);
            r in page.items || (page.next.Some? && Precedes(d, page.next.value, r))
  {
    RowsAfterIsFilter(d, rows, cursor);
    RowsAfterKeepsOrder(d, rows, cursor);
    PageIsPrefix(d, rows, cursor, limit);
    var after, page := RowsAfter(d, rows, cursor), FindPage(d, rows, cursor, limit);
    var i :| 0 <= i < |after| && after[i] == r;
    if page.hasMore {
      assert after[limit - 1] in after && Cut(after[limit - 1]) == after[limit - 1];
      if i < limit {
        assert page.items[i] == r;
      }
    }
  }

  /** Everything a walk returns lies after its cursor, in strict order, and was there when it was read. */
  lemma {:induction false} WalkIsOrdered(d: Direction, tables: seq<seq<Key>>, cursor: Option<Key>, limit: nat)
    requires Walkable(d, tables) && limit >= 1
    ensures var w := Walk(d, tables, cursor, limit);
            && Sorted(d, w.items) && AllAfter(d, cursor, w.items)
            && forall r | r in w.items :: exists t | t in tables :: r in t
    decreases |tables|
  {
    if tables != [] {
      var page := FindPage(d, tables[0], cursor, limit);
      PageCovers(d, tables[0], cursor, limit);
      if page.next.Some? {
        assert forall t | t in tables[1..] :: t in tables;
        WalkIsOrdered(d, tables[1..], page.next, limit);
        var rest := Walk(d, tables[1..], page.next, limit);
        SortedConcat(d, page.items, page.next.value, rest.items);
        AfterConcat(d, cursor, page.items, rest.items);
        forall r | r in rest.items ensures exists t | t in tables :: r in t {
          var t :| t in tables[1..] && r in t;
        }
      }
    }
  }

  lemma AfterConcat(d: Direction, cursor: Option<Key>, xs: seq<Key>, ys: seq<Key>)
    requires xs != [] && AllAfter(d, cursor, xs) && AllAfter(d, Some(xs[|xs| - 1]), ys)
    ensures AllAfter(d, cursor, xs + ys)
  {
    assert xs[|xs| - 1] in xs;
  }

  /** A finished walk misses no row that was there at every read. */
  lemma {:induction false} WalkIsComplete(d: Direction, tables: seq<seq<Key>>, cursor: Option<Key>, limit: nat, r: Key)
    requires Walkable(d, tables) && limit >= 1 && Walk(d, tables, cursor, limit).finished
    requires forall t | t in tables :: r in t
    requires cursor.Some? ==> Precedes(d, cursor.value, r)
    ensures r in Walk(d, tables, cursor, limit).items
    decreases |tables|
  {
    var page := FindPage(d, tables[0], cursor, limit);
    assert tables[0] in tables;
    PageLeavesOutOnlyLater(d, tables[0], cursor, limit, r);
    if page.next.Some? && r !in page.items {
      assert forall t | t in tables[1..] :: t in tables;
      WalkIsComplete(d, tables[1..], page.next, limit, r);
    }
  }

  ghost function Occurrences(r: Key, rows: seq<Key>): nat {
    multiset(rows)[r]
  }

  lemma {:induction false} SortedOccursOnce(d: Direction, rows: seq<Key>, r: Key)
    requires Sorted(d, rows)
    ensures Occurrences(r, rows) == if r in rows then 1 else 0
  {
    if rows != [] {
      assert rows == [rows[0]] + rows[1..];
      SortedOccursOnce(d, rows[1..], r);
      assert forall i | 0 <= i < |rows[1..]| :: Precedes(d, rows[0], rows[1..][i]);
    }
  }

  /**
   At millisecond resolution, walking to the end while rows come and go returns
   every row present throughout exactly once, in strict listing order.
   */
  lemma WalkReturnsLastingRowsOnce(d: Direction, tables: seq<seq<Key>>, limit: nat, r: Key)
    requires Walkable(d, tables) && limit >= 1 && Walk(d, tables, None, limit).finished
    requires forall t | t in tables :: r in t
    ensures Occurrences(r, Walk(d, tables, None, limit).items) == 1
    ensures Sorted(d, Walk(d, tables, None, limit).items)
  {
    WalkIsOrdered(d, tables, None, limit);
    WalkIsComplete(d, tables, None, limit, r);
    SortedOccursOnce(d, Walk(d, tables, None, limit).items, r);
  }

  // ------------------- one lasting row, with microseconds, over changing tables

  predicate Ahead(d: Direction, cursor: Option<Key>, r: Key) {
    cursor.None? || Precedes(d, cursor.value, r)
  }

  ghost predicate AllSorted(d: Direction, tables: seq<seq<Key>>) {
    forall t | t in tables :: Sorted(d, t)
  }

  /** How one page treats a row of its table: it returns it, leaves it beyond its last row, or never saw it. */
  lemma PagePlaces(d: Direction, rows: seq<Key>, cursor: Option<Key>, limit: nat, r: Key)
    requires Sorted(d, rows) && limit >= 1
    ensures var page := FindPage(d, rows, cursor, limit);
            && Occurrences(r, page.items) == (if r in page.items then 1 else 0)
            && (r in page.items ==> Ahead(d, cursor, r))
            && (page.next.Some? ==>
                  && page.items != [] && page.next.value == Cut(page.items[|page.items| - 1])
                  && Ahead(d, cursor, page.items[|page.items| - 1])
                  && (r in page.items ==> !Precedes(d, page.items[|page.items| - 1], r))
                  && (r in rows && Ahead(d, cursor, r) && r !in page.items ==>
                        Precedes(d, page.items[|page.items| - 1], r)))
            && (page.next.None? && r in rows && Ahead(d, cursor, r) ==> r in page.items)
  {
    RowsAfterIsFilter(d, rows, cursor);
    RowsAfterKeepsOrder(d, rows, cursor);
    PageIsPrefix(d, rows, cursor, limit);
    var after, page := RowsAfter(d, rows, cursor), FindPage(d, rows, cursor, limit);
    PrefixOfSorted(d, after, |page.items|);
    assert page.items == after[..|page.items|];
    SortedOccursOnce(d, page.items, r);
    assert r in page.items ==> r in after;
    if page.next.Some? {
      assert after[limit - 1] in after && page.items[|page.items| - 1] == after[limit - 1];
      BeforeTheCut(d, after, limit, r);
      BeyondTheCut(d, after, limit, r);
    }
  }

  lemma BeforeTheCut(d: Direction, rows: seq<Key>, n: nat, r: Key)
    requires Sorted(d, rows) && 0 < n <= |rows|
    ensures r in rows[..n] ==> !Precedes(d, rows[n - 1], r)
  {
    if r in rows[..n] {
      var i :| 0 <= i < n && rows[..n][i] == r;
      assert i < n - 1 ==> Precedes(d, rows[i], rows[n - 1]);
    }
  }

  lemma BeyondTheCut(d: Direction, rows: seq<Key>, n: nat, r: Key)
    requires Sorted(d, rows) && 0 < n <= |rows|
    ensures r in rows && r !in rows[..n] ==> Precedes(d, rows[n - 1], r)
  {
    if r in rows && r !in rows[..n] {
      assert rows == rows[..n] + rows[n..];
      var i :| 0 <= i < |rows[n..]| && rows[n..][i] == r;
      assert Precedes(d, rows[n - 1], rows[n + i]);
    }
  }

  lemma PrefixOfSorted(d: Direction, rows: seq<Key>, n: nat)
    requires Sorted(d, rows) && n <= |rows|
    ensures Sorted(d, rows[..n])
  {
    forall i, j | 0 <= i < j < n ensures Precedes(d, rows[..n][i], rows[..n][j]) {
      assert Precedes(d, rows[i], rows[j]);
    }
  }

  lemma OccurrencesAdd(r: Key, xs: seq<Key>, ys: seq<Key>)
    ensures Occurrences(r, xs + ys) == Occurrences(r, xs) + Occurrences(r, ys)
  {
  }

  /** Newest first, a cut only moves on: a row behind the cursor is never returned again. */
  lemma {:induction false} BehindIsGone(tables: seq<seq<Key>>, cursor: Option<Key>, limit: nat, r: Key)
    requires AllSorted(Descending, tables) && limit >= 1 && !Ahead(Descending, cursor, r)
    ensures Occurrences(r, Walk(Descending, tables, cursor, limit).items) == 0
    decreases |tables|
  {
    if tables != [] {
      var page := FindPage(Descending, tables[0], cursor, limit);
      assert tables[0] in tables;
      PagePlaces(Descending, tables[0], cursor, limit, r);
      if page.next.Some? {
        assert forall t | t in tables[1..] :: t in tables;
        TruncateBounds(page.items[|page.items| - 1].at);
        BehindIsGone(tables[1..], page.next, limit, r);
        OccurrencesAdd(r, page.items, Walk(Descending, tables[1..], page.next, limit).items);
      }
    }
  }

  /** No page cut before the row is returned jumps over it. */
  predicate NotJumped(tables: seq<seq<Key>>, cursor: Option<Key>, limit: nat, r: Key)
    decreases |tables|
  {
    tables == [] ||
    var page := FindPage(Descending, tables[0], cursor, limit);
    page.next.None? || r in page.items
    || (Precedes(Descending, page.next.value, r) && NotJumped(tables[1..], page.next, limit, r))
  }

  /**
   Newest first, with microseconds and rows coming and going: a lasting row is
   returned once if no cut jumps over it, else never.
   */
  lemma {:induction false} DescendingReturnsUnlessJumped(tables: seq<seq<Key>>, cursor: Option<Key>, limit: nat, r: Key)
    requires AllSorted(Descending, tables) && limit >= 1 && Walk(Descending, tables, cursor, limit).finished
    requires (forall t | t in tables :: r in t) && Ahead(Descending, cursor, r)
    ensures Occurrences(r, Walk(Descending, tables, cursor, limit).items) ==
            if NotJumped(tables, cursor, limit, r) then 1 else 0
    decreases |tables|
  {
    var page := FindPage(Descending, tables[0], cursor, limit);
    assert tables[0] in tables;
    PagePlaces(Descending, tables[0], cursor, limit, r);
    if page.next.Some? {
      assert forall t | t in tables[1..] :: t in tables;
      TruncateBounds(page.items[|page.items| - 1].at);
      OccurrencesAdd(r, page.items, Walk(Descending, tables[1..], page.next, limit).items);
      if Ahead(Descending, page.next, r) {
        DescendingReturnsUnlessJumped(tables[1..], page.next, limit, r);
      } else {
        BehindIsGone(tables[1..], page.next, limit, r);
      }
    }
  }

  /** No page cut after the row was returned resumes at or before it. */
  predicate NotResumed(tables: seq<seq<Key>>, cursor: Option<Key>, limit: nat, r: Key, returned: bool)
    decreases |tables|
  {
    tables == [] ||
    var page := FindPage(Ascending, tables[0], cursor, limit);
    page.next.None?
    || (((returned || r in page.items) ==> !Precedes(Ascending, page.next.value, r))
        && NotResumed(tables[1..], page.next, limit, r, returned || r in page.items))
  }

  /** Oldest first, a cut only falls back: a finished walk returns every lasting row it has ahead. */
  lemma {:induction false} AheadIsReturned(tables: seq<seq<Key>>, cursor: Option<Key>, limit: nat, r: Key)
    requires AllSorted(Ascending, tables) && limit >= 1 && Walk(Ascending, tables, cursor, limit).finished
    requires (forall t | t in tables :: r in t) && Ahead(Ascending, cursor, r)
    ensures Occurrences(r, Walk(Ascending, tables, cursor, limit).items) >= 1
    decreases |tables|
  {
    var page := FindPage(Ascending, tables[0], cursor, limit);
    assert tables[0] in tables;
    PagePlaces(Ascending, tables[0], cursor, limit, r);
    if page.next.Some? {
      assert forall t | t in tables[1..] :: t in tables;
      OccurrencesAdd(r, page.items, Walk(Ascending, tables[1..], page.next, limit).items);
      if r !in page.items {
        TruncateBounds(page.items[|page.items| - 1].at);
        AheadIsReturned(tables[1..], page.next, limit, r);
      }
    }
  }

  /**
   Oldest first, with microseconds and rows coming and going: a finished walk
   returns a lasting row exactly once if and only if no cut resumes at or before
   it once it has been returned.
   */
  lemma {:induction false} AscendingOnceUnlessResumed(
    tables: seq<seq<Key>>, cursor: Option<Key>, limit: nat, r: Key, returned: bool)
    requires AllSorted(Ascending, tables) && limit >= 1 && Walk(Ascending, tables, cursor, limit).finished
    requires (forall t | t in tables :: r in t) && Ahead(Ascending, cursor, r) == !returned
    ensures Occurrences(r, Walk(Ascending, tables, cursor, limit).items) == (if returned then 0 else 1)
            <==> NotResumed(tables, cursor, limit, r, returned)
    decreases |tables|
  {
    var page := FindPage(Ascending, tables[0], cursor, limit);
    assert tables[0] in tables;
    PagePlaces(Ascending, tables[0], cursor, limit, r);
    if page.next.Some? {
      var now := returned || r in page.items;
      assert forall t | t in tables[1..] :: t in tables;
      TruncateBounds(page.items[|page.items| - 1].at);
      OccurrencesAdd(r, page.items, Walk(Ascending, tables[1..], page.next, limit).items);
      if Ahead(Ascending, page.next, r) {
        AheadIsReturned(tables[1..], page.next, limit, r);
      }
      if Ahead(Ascending, page.next, r) == !now {
        AscendingOnceUnlessResumed(tables[1..], page.next, limit, r, now);
      }
    }
  }

  // ------------------------------- exactly when microseconds are walked right

  /** The same table, read m times. */
  function Still(rows: seq<Key>, m: nat): seq<seq<Key>> {
    seq(m, _ => rows)
  }

  /** The cursor cut at a page's last row resumes exactly at the row that follows it. */
  predicate CleanCut(d: Direction, rows: seq<Key>, i: nat)
    requires 0 < i < |rows|
  {
    if d == Ascending then Aligned(rows[i - 1]) else Less(rows[i], Cut(rows[i - 1]))
  }

  /** Every page boundary from position i on is a clean cut. */
  predicate BoundariesClean(d: Direction, rows: seq<Key>, limit: nat, i: nat)
    requires limit >= 1
    decreases |rows| - i
  {
    i + limit >= |rows| || (CleanCut(d, rows, i + limit) && BoundariesClean(d, rows, limit, i + limit))
  }

  /** The number of pages from position i on. */
  function Pages(n: nat, limit: nat, i: nat): nat
    requires limit >= 1
    decreases n - i
  {
    if i + limit >= n then 1 else 1 + Pages(n, limit, i + limit)
  }

  lemma {:induction false} RowsAfterTakesAll(d: Direction, rows: seq<Key>, cursor: Key)
    requires forall r | r in rows :: Precedes(d, cursor, r)
    ensures RowsAfter(d, rows, Some(cursor)) == rows
  {
    if rows != [] {
      assert rows[0] in rows && forall r | r in rows[1..] :: r in rows;
      RowsAfterTakesAll(d, rows[1..], cursor);
    }
  }

  lemma {:induction false} RowsAfterDrops(d: Direction, rows: seq<Key>, cursor: Key, j: nat)
    requires j <= |rows|
    requires forall i | 0 <= i < j :: !Precedes(d, cursor, rows[i])
    requires forall i | j <= i < |rows| :: Precedes(d, cursor, rows[i])
    ensures RowsAfter(d, rows, Some(cursor)) == rows[j..]
    decreases j
  {
    if j == 0 {
      RowsAfterTakesAll(d, rows, cursor);
    } else {
      var tail := rows[1..];
      assert forall i | 0 <= i < |tail| :: tail[i] == rows[i + 1];
      RowsAfterDrops(d, tail, cursor, j - 1);
      assert tail[j - 1..] == rows[j..];
    }
  }

  lemma {:induction false} FirstPageTakesAll(d: Direction, rows: seq<Key>)
    ensures RowsAfter(d, rows, None) == rows
  {
    if rows != [] {
      FirstPageTakesAll(d, rows[1..]);
    }
  }

  lemma TruncateBounds(at: nat)
    ensures Truncate(at) <= at && (Truncate(at) == at <==> at % MICROS_PER_MILLI == 0)
  {
  }

  /** A clean cut loses nothing and repeats nothing. */
  lemma CleanCutResumes(d: Direction, rows: seq<Key>, i: nat)
    requires Sorted(d, rows) && 0 < i < |rows| && CleanCut(d, rows, i)
    ensures RowsAfter(d, rows, Some(Cut(rows[i - 1]))) == rows[i..]
  {
    var cursor := Cut(rows[i - 1]);
    TruncateBounds(rows[i - 1].at);
    forall j | 0 <= j < |rows| ensures Precedes(d, cursor, rows[j]) <==> j >= i {
      assert j < i - 1 ==> Precedes(d, rows[j], rows[i - 1]);
      assert i - 1 < j ==> Precedes(d, rows[i - 1], rows[j]);
      assert i < j ==> Precedes(d, rows[i], rows[j]);
    }
    RowsAfterDrops(d, rows, cursor, i);
  }

  /** An unclean cut does not resume with the next row: it skips it, or starts again at or before the page's last. */
  lemma UncleanCutMisses(d: Direction, rows: seq<Key>, i: nat)
    requires Sorted(d, rows) && 0 < i < |rows| && !CleanCut(d, rows, i)
    ensures var after := RowsAfter(d, rows, Some(Cut(rows[i - 1]))); after == [] || after[0] != rows[i]
  {
    var cursor := Cut(rows[i - 1]);
    var after := RowsAfter(d, rows, Some(cursor));
    TruncateBounds(rows[i - 1].at);
    RowsAfterIsFilter(d, rows, Some(cursor));
    RowsAfterKeepsOrder(d, rows, Some(cursor));
    if after != [] {
      assert Precedes(d, rows[i - 1], rows[i]);
      if d == Ascending {
        NothingBeforeFirst(d, after, rows[i - 1]);
      } else {
        assert after[0] in after;
      }
    }
  }

  lemma NothingBeforeFirst(d: Direction, rows: seq<Key>, r: Key)
    requires Sorted(d, rows) && r in rows
    ensures !Precedes(d, r, rows[0])
  {
    var k :| 0 <= k < |rows| && rows[k] == r;
    assert k > 0 ==> Precedes(d, rows[0], rows[k]);
  }

  /** The items of a walk begin with the first row its cursor admits. */
  lemma WalkStartsRight(d: Direction, tables: seq<seq<Key>>, cursor: Option<Key>, limit: nat)
    requires tables != [] && limit >= 1
    ensures var after, w := RowsAfter(d, tables[0], cursor), Walk(d, tables, cursor, limit);
            if after == [] then w.items == [] else w.items != [] && w.items[0] == after[0]
  {
    PageIsPrefix(d, tables[0], cursor, limit);
  }

  /** The first page of a walk that stands at position i, when more follows. */
  lemma StillWalkStep(d: Direction, rows: seq<Key>, cursor: Option<Key>, limit: nat, i: nat, m: nat)
    requires limit >= 1 && m > 0 && i + limit < |rows| && RowsAfter(d, rows, cursor) == rows[i..]
    ensures var rest := Walk(d, Still(rows, m - 1), Some(Cut(rows[i + limit - 1])), limit);
            Walk(d, Still(rows, m), cursor, limit) == Walked(rows[i..i + limit] + rest.items, rest.finished)
  {
    assert Still(rows, m)[0] == rows && Still(rows, m)[1..] == Still(rows, m - 1);
    PageIsPrefix(d, rows, cursor, limit);
    assert rows[i..][limit - 1] == rows[i + limit - 1] && rows[i..][..limit] == rows[i..i + limit];
  }

  /** Such a walk is right exactly when the walk from its next cursor is. */
  lemma StillWalkReduces(d: Direction, rows: seq<Key>, cursor: Option<Key>, limit: nat, i: nat, m: nat)
    requires limit >= 1 && m > 0 && i + limit < |rows| && RowsAfter(d, rows, cursor) == rows[i..]
    ensures Walk(d, Still(rows, m), cursor, limit) == Walked(rows[i..], true)
            <==> Walk(d, Still(rows, m - 1), Some(Cut(rows[i + limit - 1])), limit) == Walked(rows[i + limit..], true)
  {
    StillWalkStep(d, rows, cursor, limit, i, m);
    assert rows[i..] == rows[i..i + limit] + rows[i + limit..];
    var rest := Walk(d, Still(rows, m - 1), Some(Cut(rows[i + limit - 1])), limit).items;
    SamePrefix(rows[i..i + limit], rest, rows[i + limit..]);
  }

  lemma StillWalkEnd(d: Direction, rows: seq<Key>, cursor: Option<Key>, limit: nat, i: nat, m: nat)
    requires limit >= 1 && m > 0 && i <= |rows| <= i + limit && RowsAfter(d, rows, cursor) == rows[i..]
    ensures Walk(d, Still(rows, m), cursor, limit) == Walked(rows[i..], true)
  {
    assert Still(rows, m)[0] == rows;
    PageIsPrefix(d, rows, cursor, limit);
  }

  lemma UncleanWalkIsWrong(d: Direction, rows: seq<Key>, limit: nat, i: nat, m: nat)
    requires Sorted(d, rows) && limit >= 1 && 0 < i < |rows| && !CleanCut(d, rows, i)
    ensures Walk(d, Still(rows, m), Some(Cut(rows[i - 1])), limit) != Walked(rows[i..], true)
  {
    UncleanCutMisses(d, rows, i);
    if m > 0 {
      assert Still(rows, m)[0] == rows;
      WalkStartsRight(d, Still(rows, m), Some(Cut(rows[i - 1])), limit);
      assert rows[i..][0] == rows[i];
    }
  }

  /** The walk from position i is right: it returns the rest of the table and ends. */
  ghost predicate Right(d: Direction, rows: seq<Key>, cursor: Option<Key>, limit: nat, i: nat, m: nat)
    requires i <= |rows|
  {
    Walk(d, Still(rows, m), cursor, limit) == Walked(rows[i..], true)
  }

  lemma CleanStep(d: Direction, rows: seq<Key>, cursor: Option<Key>, limit: nat, i: nat, m: nat)
    requires limit >= 1 && m > 0 && i + limit < |rows| && RowsAfter(d, rows, cursor) == rows[i..]
    requires Right(d, rows, Some(Cut(rows[i + limit - 1])), limit, i + limit, m - 1)
    ensures Right(d, rows, cursor, limit, i, m)
  {
    StillWalkReduces(d, rows, cursor, limit, i, m);
  }

  lemma WrongStep(d: Direction, rows: seq<Key>, cursor: Option<Key>, limit: nat, i: nat, m: nat)
    requires limit >= 1 && m > 0 && i + limit < |rows| && RowsAfter(d, rows, cursor) == rows[i..]
    requires !Right(d, rows, Some(Cut(rows[i + limit - 1])), limit, i + limit, m - 1)
    ensures !Right(d, rows, cursor, limit, i, m)
  {
    StillWalkReduces(d, rows, cursor, limit, i, m);
  }

  /** A walk read zero times has not ended. */
  lemma NoReadsNoWalk(d: Direction, rows: seq<Key>, cursor: Option<Key>, limit: nat, i: nat)
    requires i <= |rows|
    ensures !Right(d, rows, cursor, limit, i, 0)
  {
  }

  /** m reads are enough, and every page boundary they cross from position i on is clean. */
  predicate ReadsExactly(d: Direction, rows: seq<Key>, limit: nat, i: nat, m: nat)
    requires limit >= 1
    decreases m
  {
    m > 0 && (i + limit >= |rows| || (CleanCut(d, rows, i + limit) && ReadsExactly(d, rows, limit, i + limit, m - 1)))
  }

  lemma {:induction false} ReadsExactlyIff(d: Direction, rows: seq<Key>, limit: nat, i: nat, m: nat)
    requires limit >= 1
    ensures ReadsExactly(d, rows, limit, i, m) <==> BoundariesClean(d, rows, limit, i) && m >= Pages(|rows|, limit, i)
    decreases m
  {
    if m > 0 && i + limit < |rows| {
      ReadsExactlyIff(d, rows, limit, i + limit, m - 1);
    }
  }

  lemma {:induction false} CleanWalkIsRight(
    d: Direction, rows: seq<Key>, cursor: Option<Key>, limit: nat, i: nat, m: nat)
    requires Sorted(d, rows) && limit >= 1 && i <= |rows| && RowsAfter(d, rows, cursor) == rows[i..]
    requires ReadsExactly(d, rows, limit, i, m)
    ensures Right(d, rows, cursor, limit, i, m)
    decreases m
  {
    if i + limit >= |rows| {
      StillWalkEnd(d, rows, cursor, limit, i, m);
    } else {
      CleanCutResumes(d, rows, i + limit);
      CleanWalkIsRight(d, rows, Some(Cut(rows[i + limit - 1])), limit, i + limit, m - 1);
      CleanStep(d, rows, cursor, limit, i, m);
    }
  }

  lemma {:induction false} OtherWalksAreWrong(
    d: Direction, rows: seq<Key>, cursor: Option<Key>, limit: nat, i: nat, m: nat)
    requires Sorted(d, rows) && limit >= 1 && i <= |rows| && RowsAfter(d, rows, cursor) == rows[i..]
    requires !ReadsExactly(d, rows, limit, i, m)
    ensures !Right(d, rows, cursor, limit, i, m)
    decreases m
  {
    if m == 0 {
      NoReadsNoWalk(d, rows, cursor, limit, i);
    } else {
      var cut := Some(Cut(rows[i + limit - 1]));
      assert !Right(d, rows, cut, limit, i + limit, m - 1) by {
        if CleanCut(d, rows, i + limit) {
          CleanCutResumes(d, rows, i + limit);
          OtherWalksAreWrong(d, rows, cut, limit, i + limit, m - 1);
        } else {
          UncleanWalkIsWrong(d, rows, limit, i + limit, m - 1);
        }
      }
      WrongStep(d, rows, cursor, limit, i, m);
    }
  }

  lemma SamePrefix(p: seq<Key>, xs: seq<Key>, ys: seq<Key>)
    ensures p + xs == p + ys <==> xs == ys
  {
    assert (p + xs)[|p|..] == xs && (p + ys)[|p|..] == ys;
  }

  /**
   At microsecond resolution, walking an unchanging table returns it exactly when
   every page boundary is a clean cut: for an ascending walk, the page's last row
   falls on a whole millisecond; for a descending one, the next row precedes that
   millisecond (or shares it with a smaller id).
   */
  lemma MicrosecondWalkIsExactIff(d: Direction, rows: seq<Key>, limit: nat, m: nat)
    requires Sorted(d, rows) && limit >= 1 && m >= Pages(|rows|, limit, 0)
    ensures Walk(d, Still(rows, m), None, limit) == Walked(rows, true) <==> BoundariesClean(d, rows, limit, 0)
  {
    FirstPageTakesAll(d, rows);
    ReadsExactlyIff(d, rows, limit, 0, m);
    assert rows[0..] == rows;
    if ReadsExactly(d, rows, limit, 0, m) {
      CleanWalkIsRight(d, rows, None, limit, 0, m);
    } else {
      OtherWalksAreWrong(d, rows, None, limit, 0, m);
    }
  }

  /** Newest first, two rows of one millisecond on either side of a page break: the second is lost. */
  lemma DescendingWalkCanLoseRows(m: nat)
    requires m >= 2
    ensures var rows := [Key(1500, 7), Key(1200, 3)];
            Sorted(Descending, rows) && Walk(Descending, Still(rows, m), None, 1) == Walked([Key(1500, 7)], true)
  {
    var rows := [Key(1500, 7), Key(1200, 3)];
    assert Still(rows, m)[0] == rows && Still(rows, m)[1..][0] == rows;
    FirstPageTakesAll(Descending, rows);
    assert Cut(Key(1500, 7)) == Key(1000, 7);
    RowsAfterDrops(Descending, rows, Key(1000, 7), 2);
  }

  /** Oldest first, a page ending between milliseconds: the walk returns the same page for ever. */
  lemma {:induction false} AscendingWalkCanRepeat(m: nat, cursor: Option<Key>)
    requires cursor == None || cursor == Some(Key(1000, 7))
    ensures var rows := [Key(1500, 7), Key(2500, 9)];
            && Sorted(Ascending, rows)
            && Walk(Ascending, Still(rows, m), cursor, 1) == Walked(seq(m, _ => Key(1500, 7)), false)
    decreases m
  {
    var rows := [Key(1500, 7), Key(2500, 9)];
    if m > 0 {
      assert Still(rows, m)[0] == rows && Still(rows, m)[1..] == Still(rows, m - 1);
      if cursor == None {
        FirstPageTakesAll(Ascending, rows);
      } else {
        RowsAfterDrops(Ascending, rows, Key(1000, 7), 0);
      }
      assert Cut(Key(1500, 7)) == Key(1000, 7);
      AscendingWalkCanRepeat(m - 1, Some(Key(1000, 7)));
      assert seq(m, _ => Key(1500, 7)) == [Key(1500, 7)] + seq(m - 1, _ => Key(1500, 7));
    }
  }
}
