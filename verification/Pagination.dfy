/**
 Keyset pagination of account transactions: newest first, one row more than the page fetched
 to see whether there is a next page, and a cursor naming the last row of the page.
 */
module Pagination {
  import opened Basics
  import opened Ordering

  /** A transaction's booking time and id; the id breaks ties. */
  datatype Row = Row(bookingDate: int, id: int)

  predicate Before(a: Row, b: Row) {
    a.bookingDate > b.bookingDate || (a.bookingDate == b.bookingDate && a.id > b.id)
  }

  lemma BeforeIsTotal()
    ensures StrictTotal(Before)
  {
  }

  /** The `where` clause: no cursor, or rows strictly after it. */
  predicate Selected(cursor: Option<Row>, r: Row) {
    cursor.None? || r.bookingDate < cursor.value.bookingDate
    || (r.bookingDate == cursor.value.bookingDate && r.id < cursor.value.id)
  }

  ghost function Remaining(rows: set<Row>, cursor: Option<Row>): set<Row> {
    set r | r in rows && Selected(cursor, r)
  }

  /** `where` and `orderBy`, before `take`. */
  ghost function Query(rows: set<Row>, cursor: Option<Row>): seq<Row> {
    BeforeIsTotal();
    Sorted(Remaining(rows, cursor), Before)
  }

  function Take<T>(xs: seq<T>, n: nat): seq<T> {
    if |xs| <= n then xs else xs[..n]
  }

  datatype Page = Page(items: seq<Row>, nextCursor: Option<Row>)

  ghost function ListTransactions(stored: set<Row>, cursor: Option<Row>, limit: nat): Page {
    var rows := Take(Query(stored, cursor), limit + 1);
    var hasMore := |rows| > limit;
    var pageRows := if hasMore then rows[..limit] else rows;
    Page(pageRows, if hasMore && pageRows != [] then Some(pageRows[|pageRows| - 1]) else None)
  }

  // ---------------------------------------------------------------- following the cursors

  /** What is collected by asking for one page after another, the i-th from the rows stored at the time, and whether it ended. */
  ghost function Collect(stored: seq<set<Row>>, cursor: Option<Row>, limit: nat): (seq<Row>, bool) {
    if stored == [] then ([], false)
    else
      var page := ListTransactions(stored[0], cursor, limit);
      if page.nextCursor.None? then (page.items, true)
      else var (rest, ended) := Collect(stored[1..], page.nextCursor, limit); (page.items + rest, ended)
  }

  /** A page holds the first rows of what remains, and its cursor splits them from the others. */
  lemma PageIsPrefix(stored: set<Row>, cursor: Option<Row>, limit: nat)
    requires limit >= 1
    ensures var page := ListTransactions(stored, cursor, limit); var all := Query(stored, cursor);
            && page.items == Take(all, limit) && (page.nextCursor.Some? <==> |all| > limit)
            && Elements(all) == Remaining(stored, cursor) && |all| == |Remaining(stored, cursor)| && Ascending(all, Before)
            && (page.nextCursor.Some? ==> page.nextCursor == Some(all[limit - 1]))
  {
    hide Sorted, StrictTotal, Ascending, Remaining, Elements;
    BeforeIsTotal();
    var all := Query(stored, cursor);
    assert Take(all, limit + 1)[..Min(limit, |all|)] == Take(all, limit);
  }

  function Min(a: nat, b: nat): nat {
    if a <= b then a else b
  }

  /** In an ascending list, what comes after a member is what the cursor at that member selects. */
  lemma SelectedAfter(all: seq<Row>, k: nat, i: nat)
    requires Ascending(all, Before) && k < |all| && i < |all|
    ensures Selected(Some(all[k]), all[i]) <==> i > k
  {
    if i > k { assert Before(all[k], all[i]); }
    if i < k { assert Before(all[i], all[k]); }
  }

  lemma RestAscends(all: seq<Row>, k: nat)
    requires Ascending(all, Before) && k <= |all|
    ensures Ascending(all[k..], Before)
  {
  }

  /** What a query from the cursor at the end of a page finds is exactly what that page left over. */
  lemma CursorContinues(stored: set<Row>, cursor: Option<Row>, limit: nat)
    requires limit >= 1 && |Query(stored, cursor)| > limit
    ensures var all := Query(stored, cursor); Query(stored, Some(all[limit - 1])) == all[limit..]
  {
    BeforeIsTotal();
    hide Query, ListTransactions, StrictTotal, Ascending;
    var all := Query(stored, cursor);
    var last := all[limit - 1];
    PageIsPrefix(stored, cursor, limit);
    PageIsPrefix(stored, Some(last), limit);
    assert last in Elements(all);
    forall r | r in all[limit..] ensures r in Remaining(stored, Some(last)) {
      var i :| 0 <= i < |all[limit..]| && all[limit..][i] == r;
      assert r == all[limit + i] && r in Elements(all);
      SelectedAfter(all, limit - 1, limit + i);
    }
    forall r | r in Remaining(stored, Some(last)) ensures r in all[limit..] {
      assert r in Elements(all);
      var i :| 0 <= i < |all| && all[i] == r;
      SelectedAfter(all, limit - 1, i);
      assert all[limit..][i - limit] == r;
    }
    assert Elements(all[limit..]) == Elements(Query(stored, Some(last)));
    RestAscends(all, limit);
    AscendingUnique(Query(stored, Some(last)), all[limit..], Before);
  }

  /** Pages asked for until the cursor is null. */
  ghost function Pages(stored: set<Row>, cursor: Option<Row>, limit: nat): seq<seq<Row>>
    requires limit >= 1
    decreases |Query(stored, cursor)|
  {
    PageIsPrefix(stored, cursor, limit);
    var page := ListTransactions(stored, cursor, limit);
    if page.nextCursor.None? then [page.items]
    else
      CursorContinues(stored, cursor, limit);
      [page.items] + Pages(stored, page.nextCursor, limit)
  }

  function Concat(pages: seq<seq<Row>>): seq<Row> {
    if pages == [] then [] else pages[0] + Concat(pages[1..])
  }

  /** `pages` is n divided by the limit, rounded up; one page when there is nothing. */
  ghost predicate IsPageCount(pages: nat, n: nat, limit: nat) {
    if n == 0 then pages == 1 else (pages - 1) * limit < n <= pages * limit
  }

  lemma OnlyPage(n: nat, limit: nat)
    requires n <= limit
    ensures IsPageCount(1, n, limit)
  {
  }

  lemma OneMorePage(pages: nat, n: nat, limit: nat)
    requires n > 0 && IsPageCount(pages, n, limit)
    ensures IsPageCount(pages + 1, n + limit, limit)
  {
    assert (pages + 1 - 1) * limit == (pages - 1) * limit + limit && (pages + 1) * limit == pages * limit + limit;
  }

  /** Later bookings first, and of one time the greater id first. */
  ghost predicate NewestFirst(rows: seq<Row>) {
    forall i, j | 0 <= i < j < |rows| ::
      rows[i].bookingDate > rows[j].bookingDate || (rows[i].bookingDate == rows[j].bookingDate && rows[i].id > rows[j].id)
  }

  ghost predicate FullButLast(pages: seq<seq<Row>>, limit: nat) {
    forall i | 0 <= i < |pages| - 1 :: |pages[i]| == limit
  }

  lemma {:induction false} PagesCover(stored: set<Row>, cursor: Option<Row>, limit: nat)
    requires limit >= 1
    ensures var pages := Pages(stored, cursor, limit);
            && Concat(pages) == Query(stored, cursor) && IsPageCount(|pages|, |Query(stored, cursor)|, limit)
            && FullButLast(pages, limit)
    decreases |Query(stored, cursor)|
  {
    hide Query, ListTransactions, IsPageCount;
    var all := Query(stored, cursor);
    PageIsPrefix(stored, cursor, limit);
    var page := ListTransactions(stored, cursor, limit);
    if page.nextCursor.None? {
      assert Concat([all]) == all + [];
      OnlyPage(|all|, limit);
    } else {
      CursorContinues(stored, cursor, limit);
      PagesCover(stored, page.nextCursor, limit);
      assert all[..limit] + all[limit..] == all;
      var rest := Pages(stored, page.nextCursor, limit);
      var pages := [page.items] + rest;
      assert pages == Pages(stored, cursor, limit) && pages[1..] == rest;
      OneMorePage(|rest|, |all| - limit, limit);
    }
  }

  /**
   Over n stored rows and with a limit of at least 1, following the cursors lists every row
   exactly once, newest first, in max(1, ceil(n / limit)) pages, all full but the last.
   */
  lemma EveryRowOnce(stored: set<Row>, limit: nat)
    requires limit >= 1
    ensures var pages := Pages(stored, None, limit);
            && Elements(Concat(pages)) == stored && |Concat(pages)| == |stored| && NewestFirst(Concat(pages))
            && IsPageCount(|pages|, |stored|, limit) && FullButLast(pages, limit)
  {
    hide IsPageCount, Pages, Concat, ListTransactions;
    assert Remaining(stored, None) == stored;
    PagesCover(stored, None, limit);
    PageIsPrefix(stored, None, limit);
  }

  ghost predicate InAll(stored: seq<set<Row>>, r: Row) {
    forall i | 0 <= i < |stored| :: r in stored[i]
  }

  /** A page from a cursor: its rows come after the cursor and before its own, and it skips none between. */
  lemma PageSplits(stored: set<Row>, cursor: Option<Row>, limit: nat)
    requires limit >= 1
    ensures var page := ListTransactions(stored, cursor, limit);
            && Ascending(page.items, Before)
            && (forall r | r in page.items :: Selected(cursor, r) && (page.nextCursor.Some? ==> !Selected(page.nextCursor, r)))
            && (forall r | r in stored && Selected(cursor, r) && (page.nextCursor.Some? ==> !Selected(page.nextCursor, r)) ::
                  r in page.items)
            && (page.nextCursor.Some? ==> Selected(cursor, page.nextCursor.value) && page.nextCursor.value in page.items)
  {
    hide Query, ListTransactions;
    PageIsPrefix(stored, cursor, limit);
    var page := ListTransactions(stored, cursor, limit);
    var all := Query(stored, cursor);
    forall r | r in page.items ensures r in Remaining(stored, cursor) { assert r in Elements(all); }
    forall i | 0 <= i < |all| && page.nextCursor.Some? ensures Selected(page.nextCursor, all[i]) <==> i >= limit {
      SelectedAfter(all, limit - 1, i);
    }
    forall r | r in stored && Selected(cursor, r) && (page.nextCursor.Some? ==> !Selected(page.nextCursor, r))
      ensures r in page.items
    {
      assert r in Elements(all);
      var i :| 0 <= i < |all| && all[i] == r;
      assert page.items[i] == r;
    }
    if page.nextCursor.Some? { assert page.items[limit - 1] == all[limit - 1]; }
  }

  /**
   Even when rows come and go between requests: the listing descends strictly, so nothing is
   listed twice, and once it has ended every row that was there all along has been listed.
   */
  lemma {:induction false} LastingRowsOnce(stored: seq<set<Row>>, cursor: Option<Row>, limit: nat)
    requires limit >= 1
    ensures var (items, ended) := Collect(stored, cursor, limit);
            && NewestFirst(items) && (forall r | r in items :: Selected(cursor, r))
            && (ended ==> forall r | Selected(cursor, r) && InAll(stored, r) :: r in items)
  {
    hide ListTransactions;
    if stored != [] {
      PageSplits(stored[0], cursor, limit);
      var page := ListTransactions(stored[0], cursor, limit);
      if page.nextCursor.Some? {
        LastingRowsOnce(stored[1..], page.nextCursor, limit);
        var rest := Collect(stored[1..], page.nextCursor, limit).0;
        forall i, j | 0 <= i < |page.items| && 0 <= j < |rest| ensures Before(page.items[i], rest[j]) {
          assert page.items[i] in page.items && rest[j] in rest;
        }
        forall r | InAll(stored, r) ensures InAll(stored[1..], r) {}
      }
    }
  }

  // ---------------------------------------------------------------- the cursor as text

  /** The text inside the base64url wrapping, which loses nothing. */
  function EncodeCursor(date: string, id: string): string {
    date + ":" + id
  }

  function IndexOf(text: string, c: char): (i: int)
    ensures -1 <= i < |text|
    ensures i >= 0 ==> text[i] == c
    ensures forall k | 0 <= k < (if i < 0 then |text| else i) :: text[k] != c
  {
    if text == "" then -1
    else if text[0] == c then 0
    else
      var i := IndexOf(text[1..], c);
      assert forall k | 1 <= k < |text| :: text[k] == text[1..][k - 1];
      if i == -1 then -1 else i + 1
  }

  /** None where it throws; `parse` is the time a date text stands for, if any. */
  function DecodeCursor(parse: string -> Option<int>, text: string): Option<(int, string)> {
    var separator := IndexOf(text, ':');
    if separator <= 0 then None
    else
      var date, id := parse(text[..separator]), text[separator + 1..];
      if date.None? || id == "" then None else Some((date.value, id))
  }

  /** Decoding gives back what was encoded exactly when the date text has no colon and nothing is empty. */
  lemma CursorRoundTripsExactly(parse: string -> Option<int>, date: string, id: string, time: int)
    requires parse(date) == Some(time)
    ensures DecodeCursor(parse, EncodeCursor(date, id)) == Some((time, id)) <==> ':' !in date && date != "" && id != ""
  {
    var text := EncodeCursor(date, id);
    var separator := IndexOf(text, ':');
    assert text[|date|] == ':';
    if ':' in date {
      var i :| 0 <= i < |date| && date[i] == ':';
      assert text[i] == ':';
      assert |text[separator + 1..]| > |id|;
    } else {
      assert forall k | 0 <= k < |date| :: text[k] == date[k];
      assert text[..separator] == date && text[separator + 1..] == id;
    }
  }

  /** What decodes, and to what: a non-empty time text without a colon, a colon, and a non-empty id, whatever is in it. */
  lemma DecodesExactly(parse: string -> Option<int>, text: string, time: int, id: string)
    ensures DecodeCursor(parse, text) == Some((time, id))
            <==> exists date :: EncodeCursor(date, id) == text && ':' !in date && date != "" && id != "" && parse(date) == Some(time)
  {
    var separator := IndexOf(text, ':');
    if DecodeCursor(parse, text) == Some((time, id)) {
      var date := text[..separator];
      assert EncodeCursor(date, id) == text;
      assert forall k | 0 <= k < |date| :: date[k] == text[k];
    }
    if date :| EncodeCursor(date, id) == text && ':' !in date && date != "" && id != "" && parse(date) == Some(time) {
      CursorRoundTripsExactly(parse, date, id, time);
    }
  }

  /** An ISO timestamp has a colon between hours and minutes, so no cursor the program issues ever decodes to its row. */
  lemma IssuedCursorNeverDecodes(parse: string -> Option<int>, isoDate: string, id: string, time: int)
    requires |isoDate| == 24 && isoDate[13] == ':' && parse(isoDate) == Some(time)
    ensures DecodeCursor(parse, EncodeCursor(isoDate, id)) != Some((time, id))
  {
    assert ':' in isoDate;
    CursorRoundTripsExactly(parse, isoDate, id, time);
  }
}
