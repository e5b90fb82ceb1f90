/** The database: ledger tables, durable work, and the transactions that are still open. */
module Store {
  import opened Common
  import opened Leases

  datatype Status = PendingCategorization | Categorized | CategorizationFailed
  datatype Source = Rules | Llm | User
  datatype Action = Ingested | CategorizedByWorker | Recategorized

  datatype Audit = Audit(action: Action, tx: Id)

  datatype Account = Account(user: Id, name: string, institution: Option<string>, currency: string, balance: int)

  /** Amounts are in hundredths, the scale of the ledger's numeric columns. */
  datatype Tx = Tx(
    account: Id, extId: string, amount: int, currency: string, description: string, occurredAt: Instant,
    status: Status, category: Option<string>, source: Option<Source>, score: Option<real>,
    categorizedAt: Option<Instant>)

  datatype Event =
    | TransactionCategorized(tx: Id, account: Id, user: Id, category: Option<string>, source: Option<Source>,
                             amount: int, currency: string, score: Option<real>, occurredAt: Instant)
    | TransactionAnomalyFlagged(tx: Id, account: Id, user: Id, amount: int, currency: string, flagged: real)

  /** An open ingest transaction: it holds the lock of `account`, has read and adjusted its
      balance, and has inserted `adds`. */
  datatype Session = Session(account: Id, balance: int, adds: map<Id, Tx>)

  /** `events` keeps the payload of every outbox row ever written and `used` every transaction
      id ever allocated; both outlive deletes. */
  datatype Db = Db(
    accounts: map<Id, Account>,
    txs: map<Id, Tx>,
    audits: multiset<Audit>,
    jobs: Queue,
    outbox: Queue,
    events: map<Id, Event>,
    sessions: map<Id, Session>,
    used: set<Id>)

  function AmountFor(tx: Tx, account: Id): int {
    if tx.account == account then tx.amount else 0
  }

  /** A quantity summed over the whole ledger. */
  ghost function Total(txs: map<Id, Tx>, f: Tx -> int): int
    decreases |txs|
  {
    if txs.Keys == {} then 0
    else
      SomeKey(txs.Keys);
      var x :| x in txs;
      f(txs[x]) + Total(txs - {x}, f)
  }

  function AmountsFor(account: Id): Tx -> int { (tx: Tx) => AmountFor(tx, account) }

  /** The sum of an account's transaction amounts. */
  ghost function Sum(txs: map<Id, Tx>, account: Id): int { Total(txs, AmountsFor(account)) }

  lemma SomeKey(s: set<Id>)
    requires s != {}
    ensures exists x :: x in s
  {
    var x := Pick(s);
  }

  lemma {:induction false} TotalWithout(txs: map<Id, Tx>, x: Id, f: Tx -> int)
    requires x in txs
    ensures Total(txs, f) == f(txs[x]) + Total(txs - {x}, f)
    decreases |txs|
  {
    SomeKey(txs.Keys);
    var y :| y in txs && Total(txs, f) == f(txs[y]) + Total(txs - {y}, f);
    if x != y {
      TotalWithout(txs - {y}, x, f);
      TotalWithout(txs - {x}, y, f);
      assert txs - {x} - {y} == txs - {y} - {x};
    }
  }

  lemma SumWithout(txs: map<Id, Tx>, x: Id, account: Id)
    requires x in txs
    ensures Sum(txs, account) == AmountFor(txs[x], account) + Sum(txs - {x}, account)
  {
    TotalWithout(txs, x, AmountsFor(account));
  }

  lemma UnionLessKey<V>(a: map<Id, V>, b: map<Id, V>, x: Id)
    requires a.Keys !! b.Keys && x in b
    ensures a + b - {x} == a + (b - {x}) && (a + b)[x] == b[x]
  {}

  lemma SumUnionStep(a: map<Id, Tx>, b: map<Id, Tx>, x: Id, account: Id)
    requires a.Keys !! b.Keys && x in b
    requires Sum(a + (b - {x}), account) == Sum(a, account) + Sum(b - {x}, account)
    ensures Sum(a + b, account) == Sum(a, account) + Sum(b, account)
  {
    UnionLessKey(a, b, x);
    SumWithout(a + b, x, account);
    SumWithout(b, x, account);
  }

  lemma {:induction false} SumUnion(a: map<Id, Tx>, b: map<Id, Tx>, account: Id)
    requires a.Keys !! b.Keys
    ensures Sum(a + b, account) == Sum(a, account) + Sum(b, account)
    decreases b.Keys
  {
    if b.Keys == {} {
      assert a + b == a;
    } else {
      var x := Pick(b.Keys);
      var rest := b - {x};
      assert rest.Keys == b.Keys - {x};
      SumUnion(a, rest, account);
      SumUnionStep(a, b, x, account);
    }
  }

  /** The sum only depends on who owns each amount. */
  lemma {:induction false} SumAgrees(a: map<Id, Tx>, b: map<Id, Tx>, account: Id)
    requires a.Keys == b.Keys && forall x | x in a :: AmountFor(a[x], account) == AmountFor(b[x], account)
    ensures Sum(a, account) == Sum(b, account)
    decreases |a|
  {
    if a.Keys != {} {
      var x := Pick(a.Keys);
      SumWithout(a, x, account);
      SumWithout(b, x, account);
      SumAgrees(a - {x}, b - {x}, account);
    }
  }

  lemma {:induction false} SumElsewhere(txs: map<Id, Tx>, account: Id)
    requires forall x | x in txs :: txs[x].account != account
    ensures Sum(txs, account) == 0
    decreases |txs|
  {
    if txs.Keys != {} {
      var x := Pick(txs.Keys);
      SumWithout(txs, x, account);
      SumElsewhere(txs - {x}, account);
    }
  }
}
