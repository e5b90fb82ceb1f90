/** Spend aggregates and the trend series: windows summed one by one, and what the sums add up to. */
module Trends {
  import opened Common
  import opened Store
  import opened Periods

  /** One aggregate query: outflow of some accounts in one currency, both bounds inclusive. */
  datatype Query = Query(accounts: set<Id>, currency: string, from: int, upTo: int)

  function Spent(q: Query, tx: Tx): int {
    if tx.account in q.accounts && tx.currency == q.currency && tx.amount < 0 && q.from <= tx.occurredAt <= q.upTo
    then -tx.amount else 0
  }

  ghost function Outflow(txs: map<Id, Tx>, q: Query): int { Total(txs, tx => Spent(q, tx)) }

  lemma {:induction false} TotalsAdd(txs: map<Id, Tx>, f: Tx -> int, g: Tx -> int, h: Tx -> int)
    requires forall x | x in txs :: f(txs[x]) == g(txs[x]) + h(txs[x])
    ensures Total(txs, f) == Total(txs, g) + Total(txs, h)
    decreases |txs|
  {
    if txs.Keys != {} {
      var x := Pick(txs.Keys);
      TotalWithout(txs, x, f);
      TotalWithout(txs, x, g);
      TotalWithout(txs, x, h);
      TotalsAdd(txs - {x}, f, g, h);
    }
  }

  // ---------------------------------------------------------------- one query, by category

  datatype Group = Group(category: Option<string>, amount: int, count: nat)

  function AmountOf(rows: seq<Group>, category: Option<string>): int {
    if rows == [] then 0
    else (if rows[0].category == category then rows[0].amount else 0) + AmountOf(rows[1..], category)
  }

  function SumAmounts(rows: seq<Group>): int { if rows == [] then 0 else rows[0].amount + SumAmounts(rows[1..]) }

  function CountOf(rows: seq<Group>, category: Option<string>): nat {
    if rows == [] then 0
    else (if rows[0].category == category then rows[0].count else 0) + CountOf(rows[1..], category)
  }

  predicate DistinctGroups(rows: seq<Group>) {
    forall i, j | 0 <= i < j < |rows| :: rows[i].category != rows[j].category
  }

  /** Adds one transaction to its category's group. */
  function AddTo(rows: seq<Group>, category: Option<string>, amount: int): seq<Group> {
    if rows == [] then [Group(category, amount, 1)]
    else if rows[0].category == category then [Group(category, rows[0].amount + amount, rows[0].count + 1)] + rows[1..]
    else [rows[0]] + AddTo(rows[1..], category, amount)
  }

  lemma {:induction false} AddToAdds(rows: seq<Group>, category: Option<string>, amount: int)
    ensures var r := AddTo(rows, category, amount);
      && SumAmounts(r) == SumAmounts(rows) + amount
      && forall c :: AmountOf(r, c) == AmountOf(rows, c) + if c == category then amount else 0
    decreases |rows|
  {
    if rows != [] && rows[0].category != category {
      AddToAdds(rows[1..], category, amount);
      assert AddTo(rows, category, amount)[1..] == AddTo(rows[1..], category, amount);
    }
  }

  predicate NoneEmpty(rows: seq<Group>) { forall g | g in rows :: g.count >= 1 }

  lemma {:induction false} AddToCounts(rows: seq<Group>, category: Option<string>, amount: int)
    ensures var r := AddTo(rows, category, amount);
      forall c :: CountOf(r, c) == CountOf(rows, c) + if c == category then 1 else 0
    decreases |rows|
  {
    if rows != [] && rows[0].category != category {
      AddToCounts(rows[1..], category, amount);
      assert AddTo(rows, category, amount)[1..] == AddTo(rows[1..], category, amount);
    }
  }

  lemma {:induction false} AddToNoneEmpty(rows: seq<Group>, category: Option<string>, amount: int)
    requires NoneEmpty(rows)
    ensures NoneEmpty(AddTo(rows, category, amount))
    decreases |rows|
  {
    if rows != [] && rows[0].category != category {
      assert forall g | g in rows[1..] :: g in rows;
      AddToNoneEmpty(rows[1..], category, amount);
      assert rows[0] in rows;
    }
  }

  lemma {:induction false} AddToDistinct(rows: seq<Group>, category: Option<string>, amount: int)
    requires DistinctGroups(rows)
    ensures DistinctGroups(AddTo(rows, category, amount))
    ensures forall g | g in AddTo(rows, category, amount) ::
      g.category == category || exists h :: h in rows && h.category == g.category
    decreases |rows|
  {
    if rows != [] && rows[0].category != category {
      var rest := AddTo(rows[1..], category, amount);
      AddToDistinct(rows[1..], category, amount);
      forall j | 0 <= j < |rest| ensures rest[j].category != rows[0].category {
        assert rest[j] in rest;
      }
    }
  }

  function SpentOn(q: Query, category: Option<string>, tx: Tx): int {
    if tx.category == category then Spent(q, tx) else 0
  }

  predicate Counts(q: Query, tx: Tx) {
    tx.account in q.accounts && tx.currency == q.currency && tx.amount < 0 && q.from <= tx.occurredAt <= q.upTo
  }

  function Tally(q: Query, category: Option<string>, tx: Tx): int {
    if Counts(q, tx) && tx.category == category then 1 else 0
  }

  ghost predicate AmountsOk(rows: seq<Group>, txs: map<Id, Tx>, q: Query) {
    && SumAmounts(rows) == Outflow(txs, q)
    && forall c :: AmountOf(rows, c) == Total(txs, tx => SpentOn(q, c, tx))
  }

  ghost predicate CountsOk(rows: seq<Group>, txs: map<Id, Tx>, q: Query) {
    NoneEmpty(rows) && forall c :: CountOf(rows, c) == Total(txs, tx => Tally(q, c, tx))
  }

  /** What a grouped query promises: one group per category with any outflow, each with that
      category's total and number of outflows. */
  ghost predicate Groups(rows: seq<Group>, txs: map<Id, Tx>, q: Query) {
    DistinctGroups(rows) && AmountsOk(rows, txs, q) && CountsOk(rows, txs, q)
  }

  lemma OneMoreTx(done: map<Id, Tx>, x: Id, tx: Tx, f: Tx -> int)
    requires x !in done
    ensures Total(done[x := tx], f) == Total(done, f) + f(tx)
  {
    TotalWithout(done[x := tx], x, f);
    assert done[x := tx] - {x} == done;
  }

  lemma AmountsGrow(rows: seq<Group>, rows': seq<Group>, done: map<Id, Tx>, x: Id, tx: Tx, q: Query)
    requires AmountsOk(rows, done, q) && x !in done
    requires SumAmounts(rows') == SumAmounts(rows) + Spent(q, tx)
    requires forall c :: AmountOf(rows', c) == AmountOf(rows, c) + SpentOn(q, c, tx)
    ensures AmountsOk(rows', done[x := tx], q)
  {
    OneMoreTx(done, x, tx, t => Spent(q, t));
    forall c ensures AmountOf(rows', c) == Total(done[x := tx], t => SpentOn(q, c, t)) {
      var f := t => SpentOn(q, c, t);
      OneMoreTx(done, x, tx, f);
      assert AmountOf(rows, c) == Total(done, t => SpentOn(q, c, t));
    }
  }

  lemma CountsGrow(rows: seq<Group>, rows': seq<Group>, done: map<Id, Tx>, x: Id, tx: Tx, q: Query)
    requires CountsOk(rows, done, q) && x !in done && NoneEmpty(rows')
    requires forall c :: CountOf(rows', c) == CountOf(rows, c) + Tally(q, c, tx)
    ensures CountsOk(rows', done[x := tx], q)
  {
    forall c ensures CountOf(rows', c) == Total(done[x := tx], t => Tally(q, c, t)) {
      var f := t => Tally(q, c, t);
      OneMoreTx(done, x, tx, f);
      assert CountOf(rows, c) == Total(done, t => Tally(q, c, t));
    }
  }

  function WithRow(rows: seq<Group>, q: Query, tx: Tx): seq<Group> {
    if Counts(q, tx) then AddTo(rows, tx.category, -tx.amount) else rows
  }

  lemma RowCounted(rows: seq<Group>, done: map<Id, Tx>, x: Id, tx: Tx, q: Query)
    requires Groups(rows, done, q) && x !in done
    ensures Groups(WithRow(rows, q, tx), done[x := tx], q)
  {
    if Counts(q, tx) {
      AddToAdds(rows, tx.category, -tx.amount);
      AddToCounts(rows, tx.category, -tx.amount);
      AddToDistinct(rows, tx.category, -tx.amount);
      AddToNoneEmpty(rows, tx.category, -tx.amount);
    }
    AmountsGrow(rows, WithRow(rows, q, tx), done, x, tx, q);
    CountsGrow(rows, WithRow(rows, q, tx), done, x, tx, q);
  }

  /** `rows` groups the part of the ledger outside `left`. */
  ghost predicate Grouped(rows: seq<Group>, txs: map<Id, Tx>, left: set<Id>, q: Query) {
    left <= txs.Keys && Groups(rows, txs - left, q)
  }

  lemma NothingGrouped(txs: map<Id, Tx>, q: Query)
    ensures Grouped([], txs, txs.Keys, q)
  {
    var none := txs - txs.Keys;
    assert none.Keys == {};
  }

  lemma AllGrouped(rows: seq<Group>, txs: map<Id, Tx>, q: Query)
    requires Grouped(rows, txs, {}, q)
    ensures Groups(rows, txs, q)
  {
    assert txs - {} == txs;
  }

  lemma OneMoreGrouped(rows: seq<Group>, txs: map<Id, Tx>, left: set<Id>, x: Id, q: Query)
    requires Grouped(rows, txs, left, q) && x in left
    ensures Grouped(WithRow(rows, q, txs[x]), txs, left - {x}, q)
  {
    RowCounted(rows, txs - left, x, txs[x], q);
    assert txs - (left - {x}) == (txs - left)[x := txs[x]];
  }

  /** The grouped query, row by row. */
  method SpendByCategory(txs: map<Id, Tx>, q: Query) returns (rows: seq<Group>)
    ensures Groups(rows, txs, q)
  {
    rows := [];
    var left := txs.Keys;
    NothingGrouped(txs, q);
    while left != {}
      invariant Grouped(rows, txs, left, q)
      decreases |left|
    {
      SomeKey(left);
      var x :| x in left;
      OneMoreGrouped(rows, txs, left, x, q);
      if Counts(q, txs[x]) { rows := AddTo(rows, txs[x].category, -txs[x].amount); }
      left := left - {x};
    }
    AllGrouped(rows, txs, q);
  }

  lemma SumsOf(rows: seq<Group>, txs: map<Id, Tx>, q: Query, c: Option<string>)
    requires Groups(rows, txs, q)
    ensures AmountOf(rows, c) == Total(txs, tx => SpentOn(q, c, tx))
    ensures CountOf(rows, c) == Total(txs, tx => Tally(q, c, tx))
  {}

  /** What one more transaction changes in the answers: an outflow of one of the accounts, in the
      currency and within both bounds, adds its amount and one to its category; any other
      transaction, be it another account's, in another currency, an inflow or out of bounds, adds
      nothing anywhere. */
  lemma OneMoreInAnswers(txs: map<Id, Tx>, q: Query, x: Id, tx: Tx, rows: seq<Group>, rows': seq<Group>,
                         c: Option<string>)
    requires x !in txs && Groups(rows, txs, q) && Groups(rows', txs[x := tx], q)
    ensures var asked := tx.account in q.accounts && tx.currency == q.currency && tx.amount < 0
                         && q.from <= tx.occurredAt <= q.upTo;
      && Outflow(txs[x := tx], q) == Outflow(txs, q) + (if asked then -tx.amount else 0)
      && AmountOf(rows', c) == AmountOf(rows, c) + (if asked && tx.category == c then -tx.amount else 0)
      && CountOf(rows', c) == CountOf(rows, c) + if asked && tx.category == c then 1 else 0
  {
    OneMoreTx(txs, x, tx, t => Spent(q, t));
    OneMoreTx(txs, x, tx, t => SpentOn(q, c, t));
    OneMoreTx(txs, x, tx, t => Tally(q, c, t));
    SumsOf(rows, txs, q, c);
    SumsOf(rows', txs[x := tx], q, c);
  }

  // ---------------------------------------------------------------- the series

  datatype Point = Point(from: Moment, upTo: Moment, total: int, rows: seq<Group>)

  /** The `k`-th window, counting back: from one period start to the next, the latest one to
      the reference itself. */
  function WindowEnd(p: Period, reference: Moment, k: nat): Moment {
    if k == 0 then reference else StartOf(p, reference, k - 1)
  }

  function WindowOf(accounts: set<Id>, currency: string, start: Moment, end: Moment): Query {
    Query(accounts, currency, InstantOf(start), InstantOf(end))
  }

  function WindowQuery(accounts: set<Id>, currency: string, p: Period, reference: Moment, k: nat): Query {
    WindowOf(accounts, currency, StartOf(p, reference, k), WindowEnd(p, reference, k))
  }

  ghost predicate PointOk(pt: Point, txs: map<Id, Tx>, accounts: set<Id>, currency: string, p: Period,
                          reference: Moment, k: nat) {
    && pt.from == StartOf(p, reference, k) && pt.upTo == WindowEnd(p, reference, k)
    && Groups(pt.rows, txs, WindowQuery(accounts, currency, p, reference, k))
    && pt.total == Outflow(txs, WindowQuery(accounts, currency, p, reference, k))
  }

  /** `newest` holds the latest windows, latest first. */
  ghost predicate SeriesOk(newest: seq<Point>, txs: map<Id, Tx>, accounts: set<Id>, currency: string, p: Period,
                           reference: Moment) {
    forall k | 0 <= k < |newest| :: PointOk(newest[k], txs, accounts, currency, p, reference, k)
  }

  function Reversed<T>(s: seq<T>): (r: seq<T>)
    ensures |r| == |s| && forall i | 0 <= i < |s| :: r[i] == s[|s| - 1 - i]
  {
    if s == [] then [] else [s[|s| - 1]] + Reversed(s[..|s| - 1])
  }

  /** The windows are contiguous, strictly receding and start on period boundaries. */
  lemma WindowsAreContiguous(p: Period, reference: Moment, k: nat)
    requires ValidMoment(reference)
    ensures WindowEnd(p, reference, k + 1) == StartOf(p, reference, k)
    ensures InstantOf(StartOf(p, reference, k + 1)) < InstantOf(WindowEnd(p, reference, k + 1))
    ensures IsBoundary(p, StartOf(p, reference, k))
  {
    StartsRecede(p, reference, k);
  }

  // ---------------------------------------------------------------- conservation

  /** Window totals added up. */
  ghost function WindowSum(txs: map<Id, Tx>, accounts: set<Id>, currency: string, p: Period, reference: Moment,
                           n: nat): int {
    if n == 0 then 0
    else WindowSum(txs, accounts, currency, p, reference, n - 1)
         + Outflow(txs, WindowQuery(accounts, currency, p, reference, n - 1))
  }

  function SumTotals(points: seq<Point>): int { if points == [] then 0 else points[0].total + SumTotals(points[1..]) }

  /** The totals of the series returned to the caller are the window totals. */
  lemma {:induction false} SeriesAddsUp(newest: seq<Point>, txs: map<Id, Tx>, accounts: set<Id>, currency: string,
                                p: Period, reference: Moment)
    requires SeriesOk(newest, txs, accounts, currency, p, reference)
    ensures SumTotals(Reversed(newest)) == WindowSum(txs, accounts, currency, p, reference, |newest|)
    decreases |newest|
  {
    if newest != [] {
      var n := |newest| - 1;
      SeriesAddsUp(newest[..n], txs, accounts, currency, p, reference);
      assert PointOk(newest[n], txs, accounts, currency, p, reference, n);
      assert Reversed(newest) == [newest[n]] + Reversed(newest[..n]);
    }
  }

  /** Outflow at exactly one instant. */
  function Exactly(accounts: set<Id>, currency: string, t: int): Query { Query(accounts, currency, t, t) }

  /** Outflow at the boundaries inside the covered range, each counted by two windows. */
  ghost function AtBoundaries(txs: map<Id, Tx>, accounts: set<Id>, currency: string, p: Period, reference: Moment,
                              n: nat): int {
    if n <= 1 then 0
    else AtBoundaries(txs, accounts, currency, p, reference, n - 1)
         + Outflow(txs, Exactly(accounts, currency, InstantOf(StartOf(p, reference, n - 2))))
  }

  function Covered(accounts: set<Id>, currency: string, p: Period, reference: Moment, n: nat): Query
    requires n >= 1
  {
    Query(accounts, currency, InstantOf(StartOf(p, reference, n - 1)), InstantOf(reference))
  }

  /** Two ranges that share one instant count it twice. */
  lemma RangesJoin(txs: map<Id, Tx>, accounts: set<Id>, currency: string, a: int, b: int, c: int)
    requires a <= b <= c + 1
    ensures Outflow(txs, Query(accounts, currency, a, b)) + Outflow(txs, Query(accounts, currency, b, c))
         == Outflow(txs, Query(accounts, currency, a, c)) + Outflow(txs, Exactly(accounts, currency, b))
  {
    var ab, bc := Query(accounts, currency, a, b), Query(accounts, currency, b, c);
    var ac, bb := Query(accounts, currency, a, c), Exactly(accounts, currency, b);
    var both := (t: Tx) => Spent(ab, t) + Spent(bc, t);
    TotalsAdd(txs, both, t => Spent(ab, t), t => Spent(bc, t));
    TotalsAdd(txs, both, t => Spent(ac, t), t => Spent(bb, t));
  }

  ghost predicate Conserved(txs: map<Id, Tx>, accounts: set<Id>, currency: string, p: Period, reference: Moment, n: nat)
    requires n >= 1
  {
    WindowSum(txs, accounts, currency, p, reference, n)
    == Outflow(txs, Covered(accounts, currency, p, reference, n))
       + AtBoundaries(txs, accounts, currency, p, reference, n)
  }

  /** The latest period starts no later than just after the reference. */
  predicate StartsInTime(p: Period, reference: Moment) {
    InstantOf(PeriodStart(p, reference)) <= InstantOf(reference) + 1
  }

  /** The window totals add up to the outflow of the whole range plus the outflow at exactly
      each interior boundary. */
  lemma {:induction false} TrendsConserve(txs: map<Id, Tx>, accounts: set<Id>, currency: string, p: Period,
                                reference: Moment, n: nat)
    requires n >= 1 && ValidMoment(reference) && (n == 1 || StartsInTime(p, reference))
    ensures Conserved(txs, accounts, currency, p, reference, n)
    decreases n
  {
    if n > 1 {
      TrendsConserve(txs, accounts, currency, p, reference, n - 1);
      StartsRecede(p, reference, n - 2);
      StartsByReference(p, reference, n - 2);
      RangesJoin(txs, accounts, currency, InstantOf(StartOf(p, reference, n - 1)),
          InstantOf(StartOf(p, reference, n - 2)), InstantOf(reference));
    } else {
      assert WindowSum(txs, accounts, currency, p, reference, 0) == 0;
    }
  }

  lemma {:induction false} StartsByReference(p: Period, reference: Moment, k: nat)
    requires ValidMoment(reference) && StartsInTime(p, reference)
    ensures InstantOf(StartOf(p, reference, k)) <= InstantOf(reference) + 1
    decreases k
  {
    if k > 0 {
      StartsRecede(p, reference, k - 1);
      StartsByReference(p, reference, k - 1);
    }
  }

  /** A reference on UTC always starts its period in time. */
  lemma UtcStartsInTime(p: Period, reference: Moment)
    requires ValidMoment(reference) && reference.offset <= 0
    ensures InstantOf(PeriodStart(p, reference)) <= InstantOf(reference) && StartsInTime(p, reference)
  {
    StartIsBoundary(p, reference);
  }

  /** A single outflow between the reference and a later period start is in the second window
      but not in the covered range. */
  lemma LateStartBreaksIt(p: Period, reference: Moment, n: nat)
    requires ValidMoment(reference) && n >= 2 && !StartsInTime(p, reference)
    ensures var tx := Tx(0, "", -1, "", "", InstantOf(reference) + 1, PendingCategorization, None, None, None, None);
      !Conserved(map[0 := tx], {0}, "", p, reference, n)
  {
    var tx := Tx(0, "", -1, "", "", InstantOf(reference) + 1, PendingCategorization, None, None, None, None);
    LoneOutflow(tx, p, reference, n);
    LoneTx(tx, Covered({0}, "", p, reference, n));
  }

  lemma LoneTx(tx: Tx, q: Query)
    ensures Outflow(map[0 := tx], q) == Spent(q, tx)
  {
    TotalWithout(map[0 := tx], 0, t => Spent(q, t));
    assert map[0 := tx] - {0} == map[];
  }

  /** The outflow just after the reference lies in the second window only, and on no boundary. */
  lemma WhereItLies(tx: Tx, p: Period, reference: Moment, k: nat)
    requires ValidMoment(reference) && k >= 1 && !StartsInTime(p, reference)
    requires tx == Tx(0, "", -1, "", "", InstantOf(reference) + 1, PendingCategorization, None, None, None, None)
    ensures Outflow(map[0 := tx], WindowQuery({0}, "", p, reference, k)) == if k == 1 then 1 else 0
    ensures Outflow(map[0 := tx], Exactly({0}, "", InstantOf(StartOf(p, reference, k - 1)))) == 0
  {
    LoneTx(tx, WindowQuery({0}, "", p, reference, k));
    LoneTx(tx, Exactly({0}, "", InstantOf(StartOf(p, reference, k - 1))));
    StartsLongBefore(p, reference, k);
    if k >= 2 { StartsLongBefore(p, reference, k - 1); }
  }

  lemma {:induction false} LoneOutflow(tx: Tx, p: Period, reference: Moment, n: nat)
    requires ValidMoment(reference) && n >= 2 && !StartsInTime(p, reference)
    requires tx == Tx(0, "", -1, "", "", InstantOf(reference) + 1, PendingCategorization, None, None, None, None)
    ensures WindowSum(map[0 := tx], {0}, "", p, reference, n) == 1
    ensures AtBoundaries(map[0 := tx], {0}, "", p, reference, n) == 0
    decreases n
  {
    WhereItLies(tx, p, reference, n - 1);
    if n == 2 { NothingInFirstWindow(tx, p, reference); } else { LoneOutflow(tx, p, reference, n - 1); }
  }

  lemma NothingInFirstWindow(tx: Tx, p: Period, reference: Moment)
    requires tx == Tx(0, "", -1, "", "", InstantOf(reference) + 1, PendingCategorization, None, None, None, None)
    ensures WindowSum(map[0 := tx], {0}, "", p, reference, 1) == 0
    ensures AtBoundaries(map[0 := tx], {0}, "", p, reference, 1) == 0
  {
    LoneTx(tx, WindowQuery({0}, "", p, reference, 0));
    assert WindowSum(map[0 := tx], {0}, "", p, reference, 0) == 0;
  }

  lemma {:induction false} StartsLongBefore(p: Period, reference: Moment, k: nat)
    requires ValidMoment(reference) && k >= 1
    ensures InstantOf(StartOf(p, reference, k)) <= InstantOf(reference)
    decreases k
  {
    StartIsBoundary(p, reference);
    StartsRecede(p, reference, k - 1);
    if k > 1 { StartsLongBefore(p, reference, k - 1); }
  }

  /** The series adds up on every ledger exactly when there is one window only, or the latest
      period starts in time - as it always does for a reference on UTC. */
  lemma TrendsConserveIff(p: Period, reference: Moment, n: nat)
    requires ValidMoment(reference) && n >= 1
    ensures (forall txs, accounts, currency :: Conserved(txs, accounts, currency, p, reference, n))
            <==> n == 1 || StartsInTime(p, reference)
  {
    if n == 1 || StartsInTime(p, reference) {
      forall txs, accounts, currency ensures Conserved(txs, accounts, currency, p, reference, n) {
        TrendsConserve(txs, accounts, currency, p, reference, n);
      }
    } else {
      LateStartBreaksIt(p, reference, n);
    }
  }

  /** Half past midnight on the first of a month, two hours east of UTC, starts too late. */
  lemma EastOfUtcStartsLate()
    ensures var reference := Moment(Date(2024 * 12, 1), 30 * 60 * SECOND, 2 * 3600 * SECOND);
      ValidMoment(reference) && !StartsInTime(Monthly, reference)
  {}

  // ---------------------------------------------------------------- the services' answers

  lemma {:induction false} ReversedTwice<T>(s: seq<T>)
    ensures Reversed(Reversed(s)) == s
  {
    var r := Reversed(s);
    forall i | 0 <= i < |s| ensures Reversed(r)[i] == s[i] {
      assert Reversed(r)[i] == r[|s| - 1 - i];
    }
  }

  /** The chart's series, oldest window first, and what its totals add up to. */
  method BuildTrends(txs: map<Id, Tx>, accounts: set<Id>, currency: string, p: Period, periods: nat, reference: Moment)
    returns (points: seq<Point>)
    ensures |points| == periods && SeriesOk(Reversed(points), txs, accounts, currency, p, reference)
    ensures SumTotals(points) == WindowSum(txs, accounts, currency, p, reference, periods)
  {
    var latest: seq<Point> := [];
    var start, end := PeriodStart(p, reference), reference;
    for n := 0 to periods
      invariant |latest| == n
      invariant start == StartOf(p, reference, n) && end == WindowEnd(p, reference, n)
      invariant SeriesOk(latest, txs, accounts, currency, p, reference)
    {
      var rows := SpendByCategory(txs, WindowOf(accounts, currency, start, end));
      var point := Point(start, end, SumAmounts(rows), rows);
      assert PointOk(point, txs, accounts, currency, p, reference, n);
      latest := latest + [point];
      end := start;
      start := PreviousStart(p, start);
    }
    points := Reversed(latest);
    ReversedTwice(latest);
    SeriesAddsUp(latest, txs, accounts, currency, p, reference);
  }

  /** A period's summary: the period to date, its total, the previous period's, and the change
      in percent, all in UTC whatever the reference's zone. */
  datatype Summary = Summary(rows: seq<Group>, total: int, previous: int, change: Option<real>)

  method SummaryTotals(txs: map<Id, Tx>, accounts: set<Id>, currency: string, p: Period, utc: Moment)
    returns (rows: seq<Group>, total: int, previous: int)
    ensures Groups(rows, txs, WindowQuery(accounts, currency, p, utc, 0))
    ensures total == Outflow(txs, WindowQuery(accounts, currency, p, utc, 0))
    ensures previous == Outflow(txs, WindowQuery(accounts, currency, p, utc, 1))
  {
    var start := PeriodStart(p, utc);
    rows := SpendByCategory(txs, WindowOf(accounts, currency, start, utc));
    var earlier := SpendByCategory(txs, WindowOf(accounts, currency, PreviousStart(p, start), start));
    total, previous := SumAmounts(rows), SumAmounts(earlier);
    assert StartOf(p, utc, 0) == start && StartOf(p, utc, 1) == PreviousStart(p, start);
  }

  method BuildSummary(txs: map<Id, Tx>, accounts: set<Id>, currency: string, p: Period, reference: Moment)
    returns (r: Summary)
    requires ValidMoment(reference)
    ensures Groups(r.rows, txs, WindowQuery(accounts, currency, p, ToUtc(reference), 0))
    ensures r.total == Outflow(txs, WindowQuery(accounts, currency, p, ToUtc(reference), 0))
    ensures r.previous == Outflow(txs, WindowQuery(accounts, currency, p, ToUtc(reference), 1))
    ensures r.total + r.previous == Outflow(txs, Covered(accounts, currency, p, ToUtc(reference), 2))
      + Outflow(txs, Exactly(accounts, currency, InstantOf(PeriodStart(p, ToUtc(reference)))))
    ensures IsChange(r.change, r.total, r.previous)
  {
    var utc := ToUtc(reference);
    UtcKeepsInstant(reference);
    var rows, total, previous := SummaryTotals(txs, accounts, currency, p, utc);
    SummaryConserves(txs, accounts, currency, p, utc);
    r := Summary(rows, total, previous, Change(total, previous));
  }

  /** The change from `previous` to `total` in percent; none from nothing. */
  predicate IsChange(c: Option<real>, total: int, previous: int) {
    if previous == 0 then c.None? else c.Some? && c.value * previous as real == 100.0 * (total - previous) as real
  }

  function Change(total: int, previous: int): (c: Option<real>)
    ensures IsChange(c, total, previous)
  {
    if previous == 0 then None else Some(100.0 * (total - previous) as real / previous as real)
  }

  /** The two windows of a summary on UTC cover their range, with the boundary counted twice. */
  lemma SummaryConserves(txs: map<Id, Tx>, accounts: set<Id>, currency: string, p: Period, utc: Moment)
    requires ValidMoment(utc) && utc.offset == 0
    ensures Outflow(txs, WindowQuery(accounts, currency, p, utc, 0)) + Outflow(txs,
        WindowQuery(accounts, currency, p, utc, 1))
         == Outflow(txs, Covered(accounts, currency, p, utc, 2)) + Outflow(txs,
             Exactly(accounts, currency, InstantOf(PeriodStart(p, utc))))
  {
    StartIsBoundary(p, utc);
    StartsRecede(p, utc, 0);
    RangesJoin(txs, accounts, currency, InstantOf(StartOf(p, utc, 1)), InstantOf(StartOf(p, utc, 0)), InstantOf(utc));
  }
}
