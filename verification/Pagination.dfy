/** Keyset pagination over the ledger, and the client's loop that follows its cursors. */
module Pagination {
  import opened Common
  import opened Store

  /** What a row is ordered by: newest first, ties by id downwards. A cursor is such a key. */
  datatype Key = Key(at: Instant, id: Id)

  predicate Above(a: Key, b: Key) { a.at > b.at || (a.at == b.at && a.id > b.id) }

  /** `from` and `to` are inclusive; an empty category text is no filter. */
  datatype Filter = Filter(
    category: Option<string>, status: Option<Status>, from: Option<Instant>, upTo: Option<Instant>)

  predicate Matches(tx: Tx, accounts: set<Id>, f: Filter) {
    && tx.account in accounts
    && (f.category.Some? && f.category.value != "" ==> tx.category == f.category)
    && (f.status.Some? ==> tx.status == f.status.value)
    && (f.from.Some? ==> tx.occurredAt >= f.from.value)
    && (f.upTo.Some? ==> tx.occurredAt <= f.upTo.value)
  }

  function Matching(txs: map<Id, Tx>, accounts: set<Id>, f: Filter): set<Key> {
    set id | id in txs && Matches(txs[id], accounts, f) :: Key(txs[id].occurredAt, id)
  }

  predicate Descending(s: seq<Key>) { forall i, j | 0 <= i < j < |s| :: Above(s[i], s[j]) }

  function Rows(s: seq<Key>): set<Key> { set k | k in s }

  predicate IsTop(rows: set<Key>, top: Key) { top in rows && forall k | k in rows :: k == top || Above(top, k) }

  lemma {:induction false} TopExists(rows: set<Key>) returns (top: Key)
    requires rows != {}
    ensures IsTop(rows, top)
    decreases |rows|
  {
    top := Pick(rows);
    var rest := rows - {top};
    assert forall k | k in rows :: k == top || k in rest;
    if rest != {} {
      var other := TopExists(rest);
      if Above(other, top) { top := other; }
    }
  }

  lemma SomeTop(rows: set<Key>)
    requires rows != {}
    ensures exists top :: IsTop(rows, top)
  {
    var top := TopExists(rows);
  }

  /** The plain sorted list the pages are compared with. */
  function Sorted(rows: set<Key>): (s: seq<Key>)
    ensures Descending(s) && Rows(s) == rows && |s| == |rows|
    decreases |rows|
  {
    if rows == {} then []
    else
      SomeTop(rows);
      var top :| IsTop(rows, top);
      var rest := Sorted(rows - {top});
      ConsRows(top, rest);
      [top] + rest
  }

  lemma ConsRows(top: Key, rest: seq<Key>)
    ensures Rows([top] + rest) == {top} + Rows(rest)
    ensures Descending(rest) && (forall k | k in Rows(rest) :: Above(top, k)) ==> Descending([top] + rest)
  {
    forall k ensures k in Rows([top] + rest) <==> k in {top} + Rows(rest) {}
    assert forall i | 0 <= i < |rest| :: rest[i] in Rows(rest);
  }

  lemma TailRows(s: seq<Key>)
    requires Descending(s) && s != []
    ensures Rows(s[1..]) == Rows(s) - {s[0]}
  {
    forall k ensures k in Rows(s[1..]) <==> k in Rows(s) - {s[0]} {
      assert s == [s[0]] + s[1..];
    }
  }

  lemma {:induction false} CountRows(s: seq<Key>)
    requires Descending(s)
    ensures |Rows(s)| == |s|
    decreases |s|
  {
    if s != [] {
      TailRows(s);
      CountRows(s[1..]);
    }
  }

  lemma SameTop(a: seq<Key>, b: seq<Key>)
    requires Descending(a) && Descending(b) && Rows(a) == Rows(b) && a != [] && b != []
    ensures a[0] == b[0]
  {
    assert a[0] in Rows(a) && b[0] in Rows(b);
    assert a[0] in b && b[0] in a;
  }

  /** A set of rows has one descending list. */
  lemma {:induction false} OneOrder(a: seq<Key>, b: seq<Key>)
    requires Descending(a) && Descending(b) && Rows(a) == Rows(b)
    ensures a == b
    decreases |a|
  {
    CountRows(a);
    CountRows(b);
    if a != [] {
      SameTop(a, b);
      TailRows(a);
      TailRows(b);
      OneOrder(a[1..], b[1..]);
    }
  }

  /** The rows after a cursor. */
  function Below(rows: set<Key>, cursor: Option<Key>): set<Key> {
    set k | k in rows && (cursor.Some? ==> Above(cursor.value, k))
  }

  /** One page: at most `limit` rows after the cursor, and the next cursor if more follow. */
  function ListPage(rows: set<Key>, limit: nat, cursor: Option<Key>): (seq<Key>, Option<Key>)
    requires limit >= 1
  {
    var ordered := Sorted(Below(rows, cursor));
    var fetched := if |ordered| > limit + 1 then ordered[..limit + 1] else ordered;
    if |fetched| > limit then (fetched[..limit], Some(fetched[limit - 1])) else (fetched, None)
  }

  lemma PageIsPrefix(rows: set<Key>, limit: nat, cursor: Option<Key>)
    requires limit >= 1
    ensures var ordered := Sorted(Below(rows, cursor));
      ListPage(rows, limit, cursor) ==
      if |ordered| > limit then (ordered[..limit], Some(ordered[limit - 1])) else (ordered, None)
  {
    var ordered := Sorted(Below(rows, cursor));
    if |ordered| > limit + 1 { assert ordered[..limit + 1][..limit] == ordered[..limit]; }
  }

  /** A page holds the first rows after its cursor, and its next cursor splits off the rest. */
  lemma PageSplits(rows: set<Key>, limit: nat, cursor: Option<Key>)
    requires limit >= 1
    ensures var (page, next) := ListPage(rows, limit, cursor);
      && Descending(page) && Rows(page) <= Below(rows, cursor)
      && (next.None? ==> Rows(page) == Below(rows, cursor) && |page| <= limit)
      && (next.Some? ==> |page| == limit && page[limit - 1] == next.value
                         && Rows(page) + Below(rows, next) == Below(rows, cursor)
                         && Below(rows, next) != {})
  {
    PageIsPrefix(rows, limit, cursor);
    var ordered := Sorted(Below(rows, cursor));
    if |ordered| > limit { SplitAt(rows, cursor, ordered, limit); }
  }

  lemma SplitAt(rows: set<Key>, cursor: Option<Key>, ordered: seq<Key>, limit: nat)
    requires 1 <= limit < |ordered| && Descending(ordered) && Rows(ordered) == Below(rows, cursor)
    ensures Rows(ordered[..limit]) + Below(rows, Some(ordered[limit - 1])) == Below(rows, cursor)
    ensures Below(rows, Some(ordered[limit - 1])) != {}
  {
    var last := ordered[limit - 1];
    assert ordered[limit] in Rows(ordered) && Above(last, ordered[limit]);
    assert ordered[limit] in Below(rows, Some(last));
    forall k ensures k in Rows(ordered[..limit]) + Below(rows, Some(last)) <==> k in Below(rows, cursor) {
      if k in Rows(ordered) { InEitherPart(ordered, limit, k); }
      if k in Rows(ordered[..limit]) { assert k in Rows(ordered); }
      if k in Below(rows, Some(last)) { assert last in Rows(ordered) && last in Below(rows, cursor); }
    }
  }

  lemma InEitherPart(s: seq<Key>, n: nat, k: Key)
    requires 1 <= n <= |s| && Descending(s) && k in Rows(s)
    ensures k in Rows(s[..n]) || Above(s[n - 1], k)
  {
    var i :| 0 <= i < |s| && s[i] == k;
    if i < n { assert s[..n][i] == k; }
  }

  // ---------------------------------------------------------------- following the cursors

  const PAGE_SIZE: nat := 100
  const MAX_PAGES: nat := 10

  /** The client's position after some pages: everything still to come lies below the cursor. */
  ghost predicate Caught(seen: seq<set<Key>>, items: seq<Key>, cursor: Option<Key>) {
    && Descending(items)
    && (forall k | k in items :: exists i :: 0 <= i < |seen| && k in seen[i])
    && (forall k | Throughout(seen, k) :: k in items || (cursor.Some? && Above(cursor.value, k)))
    && (cursor.Some? ==> items != [] && items[|items| - 1] == cursor.value)
  }

  /** A row that was there, and matched, at every request. */
  ghost predicate Throughout(seen: seq<set<Key>>, k: Key) { seen != [] && forall rows | rows in seen :: k in rows }

  lemma DescendingJoin(a: seq<Key>, b: seq<Key>)
    requires Descending(a) && Descending(b) && (a != [] ==> forall k | k in b :: Above(a[|a| - 1], k))
    ensures Descending(a + b)
  {
    var s := a + b;
    forall i, j | 0 <= i < j < |s| ensures Above(s[i], s[j]) {
      if i < |a| <= j {
        assert s[j] in b && Above(a[|a| - 1], s[j]);
        assert i == |a| - 1 || Above(a[i], a[|a| - 1]);
      }
    }
  }

  lemma PageContinues(seen: seq<set<Key>>, items: seq<Key>, cursor: Option<Key>, rows: set<Key>, limit: nat)
    requires limit >= 1 && (seen == [] ==> items == [] && cursor.None?)
    requires seen != [] ==> Caught(seen, items, cursor) && cursor.Some?
    ensures var (page, next) := ListPage(rows, limit, cursor); Caught(seen + [rows], items + page, next)
  {
    var (page, next) := ListPage(rows, limit, cursor);
    var now := seen + [rows];
    PageSplits(rows, limit, cursor);
    assert forall k | k in page :: k in Rows(page) && k in Below(rows, cursor);
    DescendingJoin(items, page);
    forall k | k in items + page ensures exists i :: 0 <= i < |now| && k in now[i] {
      if k in items {
        var i :| 0 <= i < |seen| && k in seen[i];
        assert k in now[i];
      } else {
        assert k in now[|seen|];
      }
    }
    forall k | Throughout(now, k) ensures k in items + page || (next.Some? && Above(next.value, k)) {
      assert now[|seen|] in now && k in rows;
      assert seen != [] ==> Throughout(seen, k) by { assert forall r | r in seen :: r in now; }
      if k !in items { ComesNow(rows, limit, cursor, k); }
    }
  }

  lemma ComesNow(rows: set<Key>, limit: nat, cursor: Option<Key>, k: Key)
    requires limit >= 1 && k in Below(rows, cursor)
    ensures var (page, next) := ListPage(rows, limit, cursor); k in page || (next.Some? && Above(next.value, k))
  {
    PageSplits(rows, limit, cursor);
    var (page, next) := ListPage(rows, limit, cursor);
    assert k in Rows(page) || (next.Some? && k in Below(rows, next));
  }

  /** What the client may conclude from its answer, whatever happened to the ledger meanwhile. */
  ghost predicate Answers(seen: seq<set<Key>>, items: seq<Key>, truncated: bool) {
    && seen != [] && Descending(items)
    && (forall k | k in items :: exists i :: 0 <= i < |seen| && k in seen[i])
    && (forall k | Throughout(seen, k) :: k in items || (truncated && items != [] && Above(items[|items| - 1], k)))
    && if truncated
       then |items| == PAGE_SIZE * MAX_PAGES && Below(seen[|seen| - 1], Some(items[|items| - 1])) != {}
       else |items| <= PAGE_SIZE * MAX_PAGES
  }

  /** The loop between two requests. */
  ghost predicate Following(seen: seq<set<Key>>, items: seq<Key>, cursor: Option<Key>) {
    && |items| == |seen| * PAGE_SIZE
    && if seen == [] then cursor.None?
       else Caught(seen, items, cursor) && cursor.Some? && Below(seen[|seen| - 1], cursor) != {}
  }

  lemma NextRequest(seen: seq<set<Key>>, items: seq<Key>, cursor: Option<Key>, rows: set<Key>)
    requires Following(seen, items, cursor) && |seen| < MAX_PAGES
    ensures var (page, next) := ListPage(rows, PAGE_SIZE, cursor);
      if next.Some? then Following(seen + [rows], items + page, next) else Answers(seen + [rows], items + page, false)
  {
    PageContinues(seen, items, cursor, rows, PAGE_SIZE);
    PageSplits(rows, PAGE_SIZE, cursor);
  }

  /** What the first `n` requests match. */
  function Snapshots(ledgers: seq<map<Id, Tx>>, accounts: set<Id>, f: Filter, n: nat): seq<set<Key>>
    requires n <= |ledgers|
  {
    seq(n, i requires 0 <= i < n => Matching(ledgers[i], accounts, f))
  }

  lemma OneMoreSnapshot(ledgers: seq<map<Id, Tx>>, accounts: set<Id>, f: Filter, n: nat)
    requires n < |ledgers|
    ensures Snapshots(ledgers, accounts, f, n + 1)
            == Snapshots(ledgers, accounts, f, n) + [Matching(ledgers[n], accounts, f)]
  {}

  /** Follows cursors up to the page cap; request `i` sees the ledger as it is in `ledgers[i]`. */
  method GetPeriodTransactions(ledgers: seq<map<Id, Tx>>, accounts: set<Id>, f: Filter)
    returns (items: seq<Key>, truncated: bool)
    requires |ledgers| >= MAX_PAGES
    ensures exists n: nat :: n <= MAX_PAGES && Answers(Snapshots(ledgers, accounts, f, n), items, truncated)
  {
    items := [];
    var cursor: Option<Key> := None;
    for page := 0 to MAX_PAGES
      invariant Following(Snapshots(ledgers, accounts, f, page), items, cursor)
    {
      var rows := Matching(ledgers[page], accounts, f);
      var (shown, next) := ListPage(rows, PAGE_SIZE, cursor);
      NextRequest(Snapshots(ledgers, accounts, f, page), items, cursor, rows);
      OneMoreSnapshot(ledgers, accounts, f, page);
      items, cursor := items + shown, next;
      if cursor.None? { return items, false; }
    }
    return items, true;
  }

  // ---------------------------------------------------------------- what it amounts to

  /** Rows taken from the top, with the rest below the last of them, are a sorted prefix. */
  lemma SortedPrefix(rows: set<Key>, items: seq<Key>)
    requires Descending(items) && Rows(items) <= rows
    requires forall k | k in rows :: k in items || (items != [] && Above(items[|items| - 1], k))
    ensures items <= Sorted(rows)
  {
    if items == [] { return; }
    var rest := Sorted(Below(rows, Some(items[|items| - 1])));
    assert forall k | k in rest :: k in Rows(rest);
    DescendingJoin(items, rest);
    var all := items + rest;
    forall k ensures k in Rows(all) <==> k in rows {
      if k in items { assert k in Rows(items); }
      if k in rows && k !in items { assert k in Rows(rest); }
    }
    OneOrder(all, Sorted(rows));
  }

  lemma FixedAnswers(seen: seq<set<Key>>, rows: set<Key>, items: seq<Key>, truncated: bool)
    requires Answers(seen, items, truncated) && forall i | 0 <= i < |seen| :: seen[i] == rows
    ensures Rows(items) <= rows
    ensures forall k | k in rows :: k in items || (truncated && items != [] && Above(items[|items| - 1], k))
  {
    assert forall k | k in rows :: Throughout(seen, k);
  }

  /** On a ledger that does not change the client gets the sorted list, up to its cap, and says
      truncated exactly when more rows match than the cap. */
  lemma FixedLedger(seen: seq<set<Key>>, rows: set<Key>, items: seq<Key>, truncated: bool)
    requires Answers(seen, items, truncated) && forall i | 0 <= i < |seen| :: seen[i] == rows
    ensures truncated <==> |rows| > PAGE_SIZE * MAX_PAGES
    ensures items == if truncated then Sorted(rows)[..PAGE_SIZE * MAX_PAGES] else Sorted(rows)
  {
    FixedAnswers(seen, rows, items, truncated);
    if truncated { CutShort(rows, items); } else { AllCollected(rows, items); }
  }

  lemma AllCollected(rows: set<Key>, items: seq<Key>)
    requires Descending(items) && Rows(items) <= rows && forall k | k in rows :: k in items
    ensures |items| == |rows| && items == Sorted(rows)
  {
    CountRows(items);
    SortedPrefix(rows, items);
    assert Rows(items) == rows;
  }

  lemma CutShort(rows: set<Key>, items: seq<Key>)
    requires items != [] && Descending(items) && Rows(items) <= rows && Below(rows, Some(items[|items| - 1])) != {}
    requires forall k | k in rows :: k in items || Above(items[|items| - 1], k)
    ensures |rows| > |items| && items == Sorted(rows)[..|items|]
  {
    SortedPrefix(rows, items);
    MoreFollow(rows, items);
  }

  lemma MoreFollow(rows: set<Key>, items: seq<Key>)
    requires items != [] && Descending(items) && Rows(items) <= rows && Below(rows, Some(items[|items| - 1])) != {}
    ensures |rows| > |items|
  {
    var more := Pick(Below(rows, Some(items[|items| - 1])));
    assert more !in items;
    CountRows(items);
    Subset(Rows(items) + {more}, rows);
  }

  lemma {:induction false} Subset(a: set<Key>, b: set<Key>)
    requires a <= b
    ensures |a| <= |b|
    decreases |a|
  {
    if a != {} {
      var k := Pick(a);
      Subset(a - {k}, b - {k});
    }
  }

  method GetFixedTransactions(txs: map<Id, Tx>, accounts: set<Id>, f: Filter) returns (items: seq<Key>, truncated: bool)
    ensures var rows := Matching(txs, accounts, f);
      && (truncated <==> |rows| > 1000)
      && items == if truncated then Sorted(rows)[..1000] else Sorted(rows)
  {
    var rows := Matching(txs, accounts, f);
    var ledgers := seq(MAX_PAGES, _ => txs);
    items, truncated := GetPeriodTransactions(ledgers, accounts, f);
    ghost var n: nat :| n <= MAX_PAGES && Answers(Snapshots(ledgers, accounts, f, n), items, truncated);
    FixedLedger(Snapshots(ledgers, accounts, f, n), rows, items, truncated);
  }

  /** Since a row's time never changes, descending keys also mean that no row comes twice. */
  lemma NoRowTwice(ledgers: seq<map<Id, Tx>>, accounts: set<Id>, f: Filter, items: seq<Key>)
    requires Descending(items)
    requires forall k | k in items :: exists i :: 0 <= i < |ledgers| && k in Matching(ledgers[i], accounts, f)
    requires forall i, j, x | 0 <= i < |ledgers| && 0 <= j < |ledgers| && x in ledgers[i] && x in ledgers[j] ::
               ledgers[i][x].occurredAt == ledgers[j][x].occurredAt
    ensures forall a, b | 0 <= a < b < |items| :: items[a].id != items[b].id
  {
    forall a, b | 0 <= a < b < |items| ensures items[a].id != items[b].id {
      assert items[a] in items && items[b] in items;
      var i :| 0 <= i < |ledgers| && items[a] in Matching(ledgers[i], accounts, f);
      var j :| 0 <= j < |ledgers| && items[b] in Matching(ledgers[j], accounts, f);
      assert Above(items[a], items[b]);
    }
  }

  /** What the rows of an answer are: matched in one of the ledgers by their account, category,
      status and time, both bounds included; and none comes after an earlier or, at the same time,
      lower one. */
  lemma RowsAreAsked(ledgers: seq<map<Id, Tx>>, accounts: set<Id>, f: Filter, n: nat, items: seq<Key>,
                     truncated: bool, i: nat)
    requires n <= |ledgers| && Answers(Snapshots(ledgers, accounts, f, n), items, truncated) && i < |items|
    ensures exists l | 0 <= l < n :: items[i].id in ledgers[l] && var tx := ledgers[l][items[i].id];
      && tx.account in accounts && items[i].at == tx.occurredAt
      && (f.category.None? || f.category.value == "" || tx.category == Some(f.category.value))
      && (f.status.None? || tx.status == f.status.value)
      && (f.from.None? || f.from.value <= items[i].at) && (f.upTo.None? || items[i].at <= f.upTo.value)
    ensures forall j | i < j < |items| ::
      items[j].at < items[i].at || (items[j].at == items[i].at && items[j].id < items[i].id)
  {
    assert items[i] in items;
    var l :| 0 <= l < n && items[i] in Snapshots(ledgers, accounts, f, n)[l];
    assert items[i] in Matching(ledgers[l], accounts, f);
  }

  /** And every row that is asked for is among those the answers draw from. */
  lemma AskedRowsMatch(txs: map<Id, Tx>, accounts: set<Id>, f: Filter, x: Id)
    requires x in txs && txs[x].account in accounts
    requires f.category.None? || f.category.value == "" || txs[x].category == Some(f.category.value)
    requires f.status.None? || txs[x].status == f.status.value
    requires (f.from.None? || f.from.value <= txs[x].occurredAt) && (f.upTo.None? || txs[x].occurredAt <= f.upTo.value)
    ensures Key(txs[x].occurredAt, x) in Matching(txs, accounts, f)
  {}
}
