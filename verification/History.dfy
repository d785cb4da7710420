/** Reading a room's stored messages page by page, newest first. */
module History {
  import opened Octets
  import opened Messages
  import opened Tables

  const MAX_HISTORY_PAGE: nat := 500

  datatype HistoryPage = HistoryPage(messages: seq<StoredMessage>, next: Option<Cursor>)

  function PageSize(limit: nat): nat { if limit < 1 then 1 else if limit > MAX_HISTORY_PAGE then MAX_HISTORY_PAGE else limit }

  // ---- text columns ----

  /** A text column is read as a C string: up to its first NUL. */
  function ColumnText(t: Text): Text
  {
    if t == [] || t[0] == '\0' then [] else [t[0]] + ColumnText(t[1..])
  }

  predicate NulFree(t: Text) { forall i :: 0 <= i < |t| ==> t[i] != '\0' }

  predicate AllNulFree(texts: seq<Text>) { forall k :: 0 <= k < |texts| ==> NulFree(texts[k]) }

  /** A text is read back as it was stored exactly when it holds no NUL. */
  lemma {:induction false} ReadBackExactly(t: Text)
    ensures NulFree(ColumnText(t)) && |ColumnText(t)| <= |t|
    ensures ColumnText(t) == t <==> NulFree(t)
    decreases |t|
  {
    if t != [] {
      ReadBackExactly(t[1..]);
      if t[0] != '\0' {
        assert NulFree(t) ==> NulFree(t[1..]);
        assert ColumnText(t)[1..] == ColumnText(t[1..]);
      }
    }
  }

  function ReadRow(m: StoredMessage): StoredMessage
  {
    StoredMessage(ColumnText(m.id), m.roomId, ColumnText(m.nickname), ColumnText(m.body), m.sentAt)
  }

  function ReadRows(rows: seq<StoredMessage>): seq<StoredMessage>
  {
    seq(|rows|, i requires 0 <= i < |rows| => ReadRow(rows[i]))
  }

  // ---- the query ----

  ghost function RowsOf(db: Database, r: RoomId): set<StoredMessage>
  {
    set id | id in db.messages && db.messages[id].roomId == r :: db.messages[id]
  }

  ghost function RowsBefore(db: Database, r: RoomId, before: Option<Cursor>): set<StoredMessage>
  {
    set m | m in RowsOf(db, r) && (before.Some? ==> Below(KeyOf(m), before.value))
  }

  lemma RowsDistinct(db: Database, r: RoomId, before: Option<Cursor>)
    requires KeyedById(db)
    ensures DistinctIds(RowsOf(db, r)) && DistinctIds(RowsBefore(db, r, before))
  {
  }

  /** Everything older than the cursor, newest first. */
  ghost function Older(db: Database, r: RoomId, before: Option<Cursor>): seq<StoredMessage>
    requires KeyedById(db)
  {
    RowsDistinct(db, r, before);
    Descending(RowsBefore(db, r, before))
  }

  ghost function UpTo(q: seq<StoredMessage>, n: nat): seq<StoredMessage> { if n <= |q| then q[..n] else q }

  /** The rows the statement steps through: at most one more than a page. */
  ghost function QueryRows(db: Database, r: RoomId, before: Option<Cursor>, limit: nat): seq<StoredMessage>
    requires KeyedById(db)
  {
    UpTo(Older(db, r, before), PageSize(limit) + 1)
  }

  function PageOf(rows: seq<StoredMessage>, limit: nat): HistoryPage
  {
    var n, read := PageSize(limit), ReadRows(rows);
    if |rows| > n then HistoryPage(read[..|rows| - 1], Some(KeyOf(read[|rows| - 2]))) else HistoryPage(read, None)
  }

  ghost function Page(db: Database, r: RoomId, before: Option<Cursor>, limit: nat): HistoryPage
    requires KeyedById(db)
  {
    PageOf(QueryRows(db, r, before, limit), limit)
  }

  /** `load_history`, given the rows its statement answers with. */
  method LoadHistory(ghost db: Database, ghost r: RoomId, limit: nat, ghost before: Option<Cursor>, answer: seq<StoredMessage>)
    returns (page: HistoryPage)
    requires KeyedById(db) && answer == QueryRows(db, r, before, limit)
    ensures page == Page(db, r, before, limit)
  {
    hide Descending, ColumnText;
    var n := PageSize(limit);
    var messages: seq<StoredMessage> := [];
    for k := 0 to |answer|
      invariant messages == ReadRows(answer[..k])
    {
      messages := messages + [ReadRow(answer[k])];
    }
    assert answer[..|answer|] == answer;
    page := HistoryPage(messages, None);
    if |messages| > n {
      var kept := messages[..|messages| - 1];
      var last := kept[|kept| - 1];
      page := HistoryPage(kept, Some(Cursor(last.sentAt, last.id)));
    }
  }

  // ---- descending order ----

  ghost predicate IsDescending(q: seq<StoredMessage>)
  {
    forall i, j :: 0 <= i < j < |q| ==> Below(KeyOf(q[j]), KeyOf(q[i]))
  }

  lemma {:induction false} DescendingIsDescending(rows: set<StoredMessage>)
    requires DistinctIds(rows)
    ensures IsDescending(Descending(rows))
    decreases |rows|
  {
    hide Descending;
    if rows != {} {
      NewestIsThere(rows);
      var top :| IsNewest(top, rows);
      DescendingOf(top, rows);
      DescendingIsDescending(rows - {top});
    }
  }

  /** A descending list of exactly the rows is the sorted one. */
  lemma {:induction false} DescendingUnique(q: seq<StoredMessage>, rows: set<StoredMessage>)
    requires DistinctIds(rows) && IsDescending(q) && forall m :: m in q <==> m in rows
    ensures q == Descending(rows)
    decreases |q|
  {
    hide Descending;
    if q == [] {
      assert forall m :: m !in rows;
      assert rows == {};
      DescendingOfNone();
    } else {
      assert IsNewest(q[0], rows);
      DescendingOf(q[0], rows);
      forall m ensures m in q[1..] <==> m in rows - {q[0]} {
        if m in q[1..] {
          var k :| 1 <= k < |q| && q[k] == m;
          BelowIrreflexive(KeyOf(m));
        }
      }
      DescendingUnique(q[1..], rows - {q[0]});
    }
  }

  lemma DescendingOfNone()
    ensures Descending({}) == []
  {
  }

  /** The rows older than the `n`th of a listing are the rest of the listing. */
  lemma OlderThan(db: Database, r: RoomId, before: Option<Cursor>, n: nat)
    requires KeyedById(db) && 1 <= n <= |Older(db, r, before)|
    ensures Older(db, r, Some(KeyOf(Older(db, r, before)[n - 1]))) == Older(db, r, before)[n..]
  {
    hide Descending;
    var q := Older(db, r, before);
    var cursor := KeyOf(q[n - 1]);
    RowsDistinct(db, r, before);
    RowsDistinct(db, r, Some(cursor));
    var rows := RowsBefore(db, r, before);
    DescendingIsDescending(rows);
    forall m ensures m in q[n..] <==> m in RowsBefore(db, r, Some(cursor)) {
      InRest(q, rows, n, m);
      if m in RowsOf(db, r) && Below(KeyOf(m), cursor) && before.Some? {
        assert q[n - 1] in rows;
        BelowTransitive(KeyOf(m), cursor, before.value);
      }
    }
    DescendingUnique(q[n..], RowsBefore(db, r, Some(cursor)));
  }

  lemma {:induction false} InRest(q: seq<StoredMessage>, rows: set<StoredMessage>, n: nat, m: StoredMessage)
    requires IsDescending(q) && 1 <= n <= |q| && forall x :: x in q <==> x in rows
    ensures m in q[n..] <==> m in rows && Below(KeyOf(m), KeyOf(q[n - 1]))
  {
    if m in rows {
      var k :| 0 <= k < |q| && q[k] == m;
      if k >= n {
        assert q[n..][k - n] == m;
      } else {
        if Below(KeyOf(m), KeyOf(q[n - 1])) {
          if k < n - 1 { BelowTransitive(KeyOf(m), KeyOf(q[n - 1]), KeyOf(m)); }
          BelowIrreflexive(KeyOf(m));
        }
        BelowIrreflexive(KeyOf(m));
      }
    }
  }

  // ---- following the cursors ----

  ghost predicate PlainIds(db: Database) { forall id :: id in db.messages ==> NulFree(db.messages[id].id) }

  /** Rows may be added between two pages, none of them older than the cursor. */
  ghost predicate AddedAbove(before: Database, after: Database, r: RoomId, cursor: Cursor)
  {
    RowsBefore(after, r, Some(cursor)) == RowsBefore(before, r, Some(cursor))
  }

  ghost predicate IsNextPage(db: Database, page: HistoryPage, laterDb: Database, later: HistoryPage, r: RoomId, limit: nat)
  {
    && KeyedById(laterDb) && page.next.Some? && AddedAbove(db, laterDb, r, page.next.value)
    && later == Page(laterDb, r, page.next, limit)
  }

  /** Pages fetched one after the other, each from the cursor of the one before, the database
      growing in between. */
  ghost predicate IsWalk(dbs: seq<Database>, r: RoomId, limit: nat, pages: seq<HistoryPage>)
  {
    && |dbs| == |pages| > 0
    && (forall k :: 0 <= k < |dbs| ==> KeyedById(dbs[k]) && PlainIds(dbs[k]))
    && pages[0] == Page(dbs[0], r, None, limit)
    && forall k :: 0 <= k < |dbs| - 1 ==> IsNextPage(dbs[k], pages[k], dbs[k + 1], pages[k + 1], r, limit)
  }

  function Visited(pages: seq<HistoryPage>): seq<StoredMessage>
  {
    if pages == [] then [] else Visited(pages[..|pages| - 1]) + pages[|pages| - 1].messages
  }

  /** One page is the next part of the listing, and its cursor leads to the rest, if there is any. */
  lemma PageIsNext(db: Database, r: RoomId, before: Option<Cursor>, limit: nat)
    requires KeyedById(db) && PlainIds(db)
    ensures var all, page, n := Older(db, r, before), Page(db, r, before, limit), PageSize(limit);
      && page.messages == ReadRows(UpTo(all, n))
      && (page.next.Some? <==> |all| > n)
      && (page.next.Some? ==> Older(db, r, page.next) == all[n..])
  {
    hide Descending, ColumnText;
    var all, n, rows := Older(db, r, before), PageSize(limit), QueryRows(db, r, before, limit);
    if |all| > n {
      assert rows == all[..n + 1];
      assert ReadRows(rows)[..n] == ReadRows(all[..n]);
      assert rows[n - 1] == all[n - 1];
      OlderIsThere(db, r, before, n - 1);
      ReadBackExactly(all[n - 1].id);
      OlderThan(db, r, before, n);
    }
  }

  lemma OlderIsThere(db: Database, r: RoomId, before: Option<Cursor>, k: nat)
    requires KeyedById(db) && PlainIds(db) && k < |Older(db, r, before)|
    ensures NulFree(Older(db, r, before)[k].id)
  {
    hide Descending;
    assert Older(db, r, before)[k] in RowsBefore(db, r, before);
  }

  lemma {:induction false} ReadRowsAppend(a: seq<StoredMessage>, b: seq<StoredMessage>)
    ensures ReadRows(a + b) == ReadRows(a) + ReadRows(b)
  {
    hide ColumnText;
  }

  lemma SameOlder(before: Database, after: Database, r: RoomId, cursor: Cursor)
    requires KeyedById(before) && KeyedById(after) && AddedAbove(before, after, r, cursor)
    ensures Older(after, r, Some(cursor)) == Older(before, r, Some(cursor))
  {
    hide Descending;
  }

  /** Where a walk stands after `m` rows of the listing. */
  ghost predicate StandsAt(all: seq<StoredMessage>, m: nat, db: Database, r: RoomId, page: HistoryPage, seen: seq<StoredMessage>)
    requires KeyedById(db)
  {
    && (page.next.Some? <==> |all| > m)
    && seen == ReadRows(UpTo(all, m))
    && (page.next.Some? ==> Older(db, r, page.next) == all[m..])
  }

  lemma {:induction false} WalkStep(all: seq<StoredMessage>, m: nat, db: Database, page: HistoryPage, laterDb: Database, later: HistoryPage,
                 r: RoomId, limit: nat, seen: seq<StoredMessage>)
    requires KeyedById(db) && PlainIds(laterDb) && IsNextPage(db, page, laterDb, later, r, limit)
    requires StandsAt(all, m, db, r, page, seen)
    ensures StandsAt(all, m + PageSize(limit), laterDb, r, later, seen + later.messages)
  {
    hide Descending, ReadRows, Older, Page;
    var n, cursor, rest := PageSize(limit), page.next, all[m..];
    SameOlder(db, laterDb, r, cursor.value);
    PageIsNext(laterDb, r, cursor, limit);
    assert UpTo(all, m) + UpTo(rest, n) == UpTo(all, m + n);
    ReadRowsAppend(UpTo(all, m), UpTo(rest, n));
    if |rest| > n { assert rest[n..] == all[m + n..]; }
  }

  /** The pages so far, and what the last cursor leaves, are the listing of the first database. */
  lemma {:induction false} WalkSoFar(dbs: seq<Database>, r: RoomId, limit: nat, pages: seq<HistoryPage>, k: nat)
    requires IsWalk(dbs, r, limit, pages) && k < |pages|
    ensures StandsAt(Older(dbs[0], r, None), (k + 1) * PageSize(limit), dbs[k], r, pages[k], Visited(pages[..k + 1]))
  {
    hide Descending, ReadRows, Older, Page, StandsAt, IsNextPage;
    assert pages[..k + 1][..k] == pages[..k];
    if k == 0 {
      FirstPage(dbs[0], r, limit, pages[0]);
      assert pages[..0] == [];
      assert Visited(pages[..1]) == Visited(pages[..0]) + pages[0].messages;
    } else {
      WalkSoFar(dbs, r, limit, pages, k - 1);
      var n := PageSize(limit);
      WalkStep(Older(dbs[0], r, None), k * n, dbs[k - 1], pages[k - 1], dbs[k], pages[k], r, limit, Visited(pages[..k]));
      assert (k + 1) * n == k * n + n;
    }
  }

  lemma FirstPage(db: Database, r: RoomId, limit: nat, page: HistoryPage)
    requires KeyedById(db) && PlainIds(db) && page == Page(db, r, None, limit)
    ensures StandsAt(Older(db, r, None), PageSize(limit), db, r, page, [] + page.messages)
  {
    hide Descending, ReadRows, Older, Page;
    PageIsNext(db, r, None, limit);
  }

  /** Following cursors until there is none visits every message of the room present at the start
      exactly once, newest first, whatever has been added above the cursors meanwhile; and no walk
      has more pages than there are messages, or one. */
  lemma {:induction false} WalkVisitsAll(dbs: seq<Database>, r: RoomId, limit: nat, pages: seq<HistoryPage>)
    requires IsWalk(dbs, r, limit, pages)
    ensures KeyedById(dbs[0])
    ensures var all := Older(dbs[0], r, None);
      && (pages[|pages| - 1].next.None? ==> Visited(pages) == ReadRows(all))
      && (|pages| == 1 || |pages| <= |all|)
      && IsDescending(all) && (forall m :: m in all <==> m in RowsOf(dbs[0], r)) && |all| == |RowsOf(dbs[0], r)|
  {
    hide Descending, ReadRows, Page, IsNextPage;
    var last, all, n := |pages| - 1, Older(dbs[0], r, None), PageSize(limit);
    WalkSoFar(dbs, r, limit, pages, last);
    assert pages[..last + 1] == pages;
    RowsDistinct(dbs[0], r, None);
    DescendingIsDescending(RowsBefore(dbs[0], r, None));
    assert RowsBefore(dbs[0], r, None) == RowsOf(dbs[0], r);
    AtLeast(last + 1, n);
    AtLeast(last, n);
    var seen := (last + 1) * n;
    assert |all| <= seen ==> UpTo(all, seen) == all;
    if last > 0 {
      WalkSoFar(dbs, r, limit, pages, last - 1);
      LinkedPages(dbs, r, limit, pages, last - 1);
    }
  }

  lemma {:induction false} LinkedPages(dbs: seq<Database>, r: RoomId, limit: nat, pages: seq<HistoryPage>, k: nat)
    requires IsWalk(dbs, r, limit, pages) && k < |pages| - 1
    ensures pages[k].next.Some?
  {
    hide Page, AddedAbove;
    assert IsNextPage(dbs[k], pages[k], dbs[k + 1], pages[k + 1], r, limit);
  }

  lemma AtLeast(k: nat, n: nat)
    requires n >= 1
    ensures k * n >= k
  {
  }
}
