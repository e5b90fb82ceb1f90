/** Ingestion, imports, user corrections and demo data: who may write the ledger, and when. */
module Ledger {
  import opened Common
  import opened Work
  import opened Leases
  import opened Store

  datatype Payload = Payload(extId: string, amount: int, currency: string, description: string, occurredAt: Instant)

  predicate HasExt(txs: map<Id, Tx>, account: Id, extId: string) {
    exists x | x in txs :: txs[x].account == account && txs[x].extId == extId
  }

  function NewTx(account: Id, accountCurrency: string, p: Payload): Tx {
    Tx(account, p.extId, p.amount, if p.currency == "" then accountCurrency else p.currency, p.description,
       p.occurredAt, PendingCategorization, None, None, None, None)
  }

  function NewJob(now: Instant): Row { Row(0, now, 0, now, None, None, None, None) }

  function NewJobs(adds: map<Id, Tx>, now: Instant): Table { map x | x in adds :: NewJob(now) }

  datatype LedgerStep =
    | Begin(sid: Id, account: Id)
    | Add(sid: Id, id: Id, payload: Payload)
    | Commit(sid: Id, now: Instant)
    | Rollback(sid: Id)
    | Recategorize(tx: Id, slug: string, now: Instant)
    | Cleanup(user: Id)

  predicate Locked(d: Db, account: Id) {
    exists sid | sid in d.sessions :: d.sessions[sid].account == account
  }

  function OwnedBy(d: Db, user: Id): set<Id> { set a | a in d.accounts && d.accounts[a].user == user }

  predicate Allowed(d: Db, s: LedgerStep) {
    match s
    case Begin(sid, account) => sid !in d.sessions && account in d.accounts && !Locked(d, account)
    case Add(sid, id, _) => sid in d.sessions && id !in d.used && d.sessions[sid].account in d.accounts
    case Commit(sid, _) => sid in d.sessions
    case Rollback(sid) => sid in d.sessions
    case Recategorize(tx, _, _) => tx in d.txs
    case Cleanup(user) => forall a | a in OwnedBy(d, user) :: !Locked(d, a)
  }

  /** One ingest inside an open transaction: a replay of a known external id adds nothing. */
  function AddTx(d: Db, sid: Id, id: Id, p: Payload): Db
    requires sid in d.sessions && d.sessions[sid].account in d.accounts
  {
    var s := d.sessions[sid];
    if HasExt(d.txs, s.account, p.extId) || HasExt(s.adds, s.account, p.extId) then d
    else
      d.(used := d.used + {id},
         sessions := d.sessions[sid := s.(balance := s.balance + p.amount,
                                          adds := s.adds[id := NewTx(s.account, d.accounts[s.account].currency, p)])])
  }

  function AuditsFor(action: Action, ids: set<Id>): multiset<Audit> {
    multiset(set x | x in ids :: Audit(action, x))
  }

  /** Rows, balance, audit entries and jobs become visible together. */
  function CommitSession(d: Db, sid: Id, now: Instant): Db
    requires sid in d.sessions
  {
    var s := d.sessions[sid];
    d.(txs := d.txs + s.adds,
       accounts := if s.account in d.accounts
                   then d.accounts[s.account := d.accounts[s.account].(balance := s.balance)] else d.accounts,
       audits := d.audits + AuditsFor(Ingested, s.adds.Keys),
       jobs := InsertRows(d.jobs, NewJobs(s.adds, now)),
       sessions := d.sessions - {sid})
  }

  function Corrected(tx: Tx, slug: string, now: Instant): Tx {
    tx.(category := Some(slug), source := Some(User), status := Categorized,
        categorizedAt := if tx.categorizedAt.Some? then tx.categorizedAt else Some(now))
  }

  // ---------------------------------------------------------------- demo cleanup

  predicate Digits(s: string) { |s| > 0 && forall i | 0 <= i < |s| :: '0' <= s[i] <= '9' }

  predicate GeneratedTail(rest: string) {
    Digits(rest) || rest == "outlier" || (|rest| > 8 && rest[..8] == "payroll_" && Digits(rest[8..]))
  }

  predicate GeneratedAt(extId: string, i: nat) {
    5 <= i < |extId| && extId[..5] == "seed_" && Digits(extId[5..i]) && extId[i] == '_' && GeneratedTail(extId[i + 1..])
  }

  /** External ids the demo generator writes: `seed_N_M`, `seed_N_payroll_M` and `seed_N_outlier`. */
  predicate Generated(extId: string) { exists i | 5 <= i < |extId| :: GeneratedAt(extId, i) }

  function GeneratedIds(d: Db, user: Id): set<Id> {
    set x | x in d.txs && d.txs[x].account in OwnedBy(d, user) && Generated(d.txs[x].extId)
  }

  function Restrict(txs: map<Id, Tx>, ids: set<Id>): map<Id, Tx> { map x | x in txs && x in ids :: txs[x] }

  /** What cleanup leaves of one of the user's accounts, or nothing when it removes it. */
  function Tidied(account: Account, delta: int, retained: bool): Option<Account> {
    var a := account.(balance := account.balance - delta);
    if !retained && a.balance == 0 && a.institution == Some("First Demo Bank") then
      if a.name == "Rewards Credit Card" then None
      else if a.name == "Everyday Checking" then Some(a.(name := "Checking", institution := None))
      else Some(a)
    else Some(a)
  }

  ghost function TidiedAccount(d: Db, ids: set<Id>, a: Id): Option<Account>
    requires a in d.accounts
  {
    Tidied(d.accounts[a], Sum(Restrict(d.txs, ids), a), exists x | x in d.txs && x !in ids :: d.txs[x].account == a)
  }

  function WithoutRowsOf(rows: Table, events: map<Id, Event>, ids: set<Id>): Table {
    map o | o in rows && !(o in events && events[o].tx in ids) :: rows[o]
  }

  /** Deleting a transaction cascades to its job and its outbox rows. */
  ghost function CleanupUser(d: Db, user: Id): Db {
    var ids := GeneratedIds(d, user);
    if ids == {} then d
    else
      var mine := OwnedBy(d, user);
      d.(txs := d.txs - ids,
         accounts := map a | a in d.accounts && (a in mine ==> TidiedAccount(d, ids, a).Some?) ::
                       if a in mine then TidiedAccount(d, ids, a).value else d.accounts[a],
         jobs := d.jobs.(rows := d.jobs.rows - ids),
         outbox := d.outbox.(rows := WithoutRowsOf(d.outbox.rows, d.events, ids)))
  }

  ghost function ApplyLedger(d: Db, s: LedgerStep): Db
    requires Allowed(d, s)
  {
    match s
    case Begin(sid, account) =>
      d.(sessions := d.sessions[sid := Session(account, d.accounts[account].balance, map[])])
    case Add(sid, id, p) => AddTx(d, sid, id, p)
    case Commit(sid, now) => CommitSession(d, sid, now)
    case Rollback(sid) => d.(sessions := d.sessions - {sid})
    case Recategorize(tx, slug, now) =>
      d.(txs := d.txs[tx := Corrected(d.txs[tx], slug, now)],
         audits := d.audits + multiset{Audit(Recategorized, tx)})
    case Cleanup(user) => CleanupUser(d, user)
  }

  // ---------------------------------------------------------------- the invariant

  ghost predicate Conserved(d: Db) {
    && (forall x | x in d.txs :: d.txs[x].account in d.accounts)
    && (forall a | a in d.accounts :: d.accounts[a].balance == Sum(d.txs, a))
  }

  predicate UniqueExt(txs: map<Id, Tx>) {
    forall x, y | x in txs && y in txs && txs[x].account == txs[y].account && txs[x].extId == txs[y].extId :: x == y
  }

  ghost predicate SessionOk(d: Db, s: Session) {
    && s.account in d.accounts
    && s.balance == d.accounts[s.account].balance + Sum(s.adds, s.account)
    && (forall x | x in s.adds :: s.adds[x].account == s.account && x !in d.txs && x in d.used && x !in d.jobs.issued)
    && UniqueExt(d.txs + s.adds)
  }

  ghost predicate SessionsOk(d: Db) {
    && (forall sid | sid in d.sessions :: SessionOk(d, d.sessions[sid]))
    && (forall i, j | i in d.sessions && j in d.sessions && i != j ::
          d.sessions[i].account != d.sessions[j].account && d.sessions[i].adds.Keys !! d.sessions[j].adds.Keys)
  }

  /** A transaction with a job is an ingested one; it has exactly one ingest audit. */
  ghost predicate JobsOk(d: Db) {
    && d.txs.Keys <= d.used && d.jobs.issued.Keys <= d.used && d.jobs.rows.Keys <= d.txs.Keys
    && (forall x | x in d.txs && x in d.jobs.issued :: x in d.jobs.rows)
    && (forall x :: d.audits[Audit(Ingested, x)] == if x in d.jobs.issued then 1 else 0)
  }

  ghost predicate LedgerInv(d: Db) {
    Conserved(d) && UniqueExt(d.txs) && SessionsOk(d) && JobsOk(d)
  }

  // ---------------------------------------------------------------- every step keeps it

  lemma BeginKeeps(d: Db, s: LedgerStep)
    requires s.Begin? && LedgerInv(d) && Allowed(d, s)
    ensures LedgerInv(ApplyLedger(d, s))
  {
    var d' := ApplyLedger(d, s);
    var added := d'.sessions[s.sid];
    assert d.txs + added.adds == d.txs;
    forall sid | sid in d'.sessions ensures SessionOk(d', d'.sessions[sid]) {
      if sid != s.sid { assert SessionOk(d, d.sessions[sid]); }
    }
  }

  lemma UniqueExtAdd(txs: map<Id, Tx>, id: Id, tx: Tx)
    requires UniqueExt(txs) && id !in txs && !HasExt(txs, tx.account, tx.extId)
    ensures UniqueExt(txs[id := tx])
  {}

  lemma SumAdd(adds: map<Id, Tx>, id: Id, tx: Tx, account: Id)
    requires id !in adds && tx.account == account
    ensures Sum(adds[id := tx], account) == Sum(adds, account) + tx.amount
  {
    SumWithout(adds[id := tx], id, account);
    assert adds[id := tx] - {id} == adds;
  }

  lemma AddedSessionOk(d: Db, s: LedgerStep)
    requires s.Add? && SessionsOk(d) && Allowed(d, s) && ApplyLedger(d, s) != d
    requires d.txs.Keys <= d.used && d.jobs.issued.Keys <= d.used
    ensures var d' := ApplyLedger(d, s); SessionOk(d', d'.sessions[s.sid])
  {
    var d' := ApplyLedger(d, s);
    var old_, new_ := d.sessions[s.sid], d'.sessions[s.sid];
    assert SessionOk(d, old_);
    var tx := new_.adds[s.id];
    SumAdd(old_.adds, s.id, tx, old_.account);
    UniqueExtAdd(d.txs + old_.adds, s.id, tx);
    assert d'.txs + new_.adds == (d.txs + old_.adds)[s.id := tx];
  }

  lemma AddSessions(d: Db, s: LedgerStep)
    requires s.Add? && SessionsOk(d) && Allowed(d, s) && ApplyLedger(d, s) != d
    requires d.txs.Keys <= d.used && d.jobs.issued.Keys <= d.used
    ensures SessionsOk(ApplyLedger(d, s))
  {
    var d' := ApplyLedger(d, s);
    AddedSessionOk(d, s);
    forall sid | sid in d'.sessions ensures SessionOk(d', d'.sessions[sid]) {
      if sid != s.sid { assert SessionOk(d, d.sessions[sid]); }
    }
  }

  lemma AddKeeps(d: Db, s: LedgerStep)
    requires s.Add? && LedgerInv(d) && Allowed(d, s)
    ensures LedgerInv(ApplyLedger(d, s))
  {
    if ApplyLedger(d, s) != d { AddSessions(d, s); }
  }

  lemma AddsAreNew(d: Db, m: Session)
    requires SessionOk(d, m)
    ensures d.txs.Keys !! m.adds.Keys && m.adds.Keys <= d.used && d.jobs.issued.Keys !! m.adds.Keys
  {
    forall x | x in m.adds ensures x !in d.txs && x in d.used && x !in d.jobs.issued {}
  }

  lemma CommitConserves(d: Db, s: LedgerStep)
    requires s.Commit? && LedgerInv(d) && Allowed(d, s)
    ensures Conserved(ApplyLedger(d, s))
  {
    var d', m := ApplyLedger(d, s), d.sessions[s.sid];
    AddsAreNew(d, m);
    forall a | a in d'.accounts ensures d'.accounts[a].balance == Sum(d'.txs, a) {
      SumUnion(d.txs, m.adds, a);
      if a != m.account { SumElsewhere(m.adds, a); }
    }
  }

  lemma UniqueTogether(txs: map<Id, Tx>, a: map<Id, Tx>, b: map<Id, Tx>, of: Id)
    requires UniqueExt(txs + a) && UniqueExt(txs + b) && txs.Keys !! a.Keys && txs.Keys !! b.Keys && a.Keys !! b.Keys
    requires (forall x | x in a :: a[x].account == of) && (forall x | x in b :: b[x].account != of)
    ensures UniqueExt(txs + a + b)
  {
    var all, left, right := txs + a + b, txs + a, txs + b;
    forall x, y | x in all && y in all && all[x].account == all[y].account && all[x].extId == all[y].extId
      ensures x == y
    {
      if x in b || y in b {
        assert x in right && y in right && right[x] == all[x] && right[y] == all[y];
      } else {
        assert x in left && y in left && left[x] == all[x] && left[y] == all[y];
      }
    }
  }

  /** Another open session is as before once session `m` is committed. */
  lemma OtherSessionOk(d: Db, m: Session, o: Session, d': Db)
    requires SessionOk(d, m) && SessionOk(d, o) && o.account != m.account && o.adds.Keys !! m.adds.Keys
    requires d'.txs == d.txs + m.adds && d'.used == d.used && d'.jobs.issued.Keys == d.jobs.issued.Keys + m.adds.Keys
    requires o.account in d'.accounts && d'.accounts[o.account].balance == d.accounts[o.account].balance
    ensures SessionOk(d', o)
  {
    AddsAreNew(d, m);
    AddsAreNew(d, o);
    UniqueTogether(d.txs, m.adds, o.adds, m.account);
  }

  lemma CommitSessions(d: Db, s: LedgerStep)
    requires s.Commit? && SessionsOk(d) && Allowed(d, s)
    ensures SessionsOk(ApplyLedger(d, s))
  {
    var d', m := ApplyLedger(d, s), d.sessions[s.sid];
    assert SessionOk(d, m);
    forall sid | sid in d'.sessions ensures SessionOk(d', d'.sessions[sid]) {
      assert SessionOk(d, d.sessions[sid]);
      OtherSessionOk(d, m, d.sessions[sid], d');
    }
  }

  lemma AuditCount(ids: set<Id>)
    ensures forall x :: AuditsFor(Ingested, ids)[Audit(Ingested, x)] == if x in ids then 1 else 0
  {
    forall x ensures AuditsFor(Ingested, ids)[Audit(Ingested, x)] == if x in ids then 1 else 0 {
      var all := set y | y in ids :: Audit(Ingested, y);
      assert Audit(Ingested, x) in all <==> x in ids;
    }
  }

  lemma CommitJobs(d: Db, s: LedgerStep)
    requires s.Commit? && LedgerInv(d) && Allowed(d, s)
    ensures JobsOk(ApplyLedger(d, s))
  {
    var d', m := ApplyLedger(d, s), d.sessions[s.sid];
    AddsAreNew(d, m);
    AuditCount(m.adds.Keys);
  }

  lemma CommitKeeps(d: Db, s: LedgerStep)
    requires s.Commit? && LedgerInv(d) && Allowed(d, s)
    ensures LedgerInv(ApplyLedger(d, s))
  {
    assert SessionOk(d, d.sessions[s.sid]);
    CommitConserves(d, s);
    CommitSessions(d, s);
    CommitJobs(d, s);
  }

  /** Rewriting a transaction's enrichment columns leaves the ledger alone. */
  predicate SameLedger(txs: map<Id, Tx>, txs': map<Id, Tx>) {
    && txs'.Keys == txs.Keys
    && forall x | x in txs :: txs'[x].account == txs[x].account && txs'[x].extId == txs[x].extId
                              && txs'[x].amount == txs[x].amount
  }

  lemma SameLedgerKeeps(d: Db, d': Db)
    requires LedgerInv(d) && SameLedger(d.txs, d'.txs)
    requires d'.accounts == d.accounts && d'.sessions == d.sessions && d'.used == d.used
    requires d'.jobs.rows.Keys == d.jobs.rows.Keys && d'.jobs.issued.Keys == d.jobs.issued.Keys
    requires forall x :: d'.audits[Audit(Ingested, x)] == d.audits[Audit(Ingested, x)]
    ensures LedgerInv(d')
  {
    forall a | a in d'.accounts ensures d'.accounts[a].balance == Sum(d'.txs, a) {
      SumAgrees(d.txs, d'.txs, a);
    }
    forall sid | sid in d'.sessions ensures SessionOk(d', d'.sessions[sid]) {
      var m := d.sessions[sid];
      assert SessionOk(d, m);
      var all, all' := d.txs + m.adds, d'.txs + m.adds;
      forall x, y | x in all' && y in all' && all'[x].account == all'[y].account && all'[x].extId == all'[y].extId
        ensures x == y
      {
        assert all[x].account == all'[x].account && all[y].extId == all'[y].extId;
      }
    }
  }

  // ---------------------------------------------------------------- cleanup

  lemma RestrictSplits(txs: map<Id, Tx>, ids: set<Id>, a: Id)
    ensures Sum(txs - ids, a) == Sum(txs, a) - Sum(Restrict(txs, ids), a)
  {
    SumUnion(txs - ids, Restrict(txs, ids), a);
    assert (txs - ids) + Restrict(txs, ids) == txs;
  }

  lemma CleanupBalance(d: Db, s: LedgerStep, a: Id)
    requires s.Cleanup? && Conserved(d) && Allowed(d, s) && GeneratedIds(d, s.user) != {}
    requires a in ApplyLedger(d, s).accounts
    ensures ApplyLedger(d, s).accounts[a].balance == Sum(ApplyLedger(d, s).txs, a)
  {
    var ids := GeneratedIds(d, s.user);
    CleanupLowers(d, s.user, ids, a);
    RestrictSplits(d.txs, ids, a);
  }

  /** Each remaining account's balance goes down by exactly what its generated rows add up to. */
  lemma CleanupLowers(d: Db, user: Id, ids: set<Id>, a: Id)
    requires ids == GeneratedIds(d, user) && ids != {} && a in CleanupUser(d, user).accounts
    ensures a in d.accounts
    ensures CleanupUser(d, user).accounts[a].balance == d.accounts[a].balance - Sum(Restrict(d.txs, ids), a)
    ensures CleanupUser(d, user).txs == d.txs - ids
  {
    if a !in OwnedBy(d, user) { SumElsewhere(Restrict(d.txs, ids), a); }
  }

  lemma CleanupConserves(d: Db, s: LedgerStep)
    requires s.Cleanup? && LedgerInv(d) && Allowed(d, s) && GeneratedIds(d, s.user) != {}
    ensures Conserved(ApplyLedger(d, s))
  {
    var d', ids, mine := ApplyLedger(d, s), GeneratedIds(d, s.user), OwnedBy(d, s.user);
    forall x | x in d'.txs ensures d'.txs[x].account in d'.accounts {
      var a := d.txs[x].account;
      if a in mine { assert TidiedAccount(d, ids, a).Some?; }
    }
    forall a | a in d'.accounts ensures d'.accounts[a].balance == Sum(d'.txs, a) {
      CleanupBalance(d, s, a);
    }
  }

  lemma CleanupSessions(d: Db, s: LedgerStep)
    requires s.Cleanup? && LedgerInv(d) && Allowed(d, s) && GeneratedIds(d, s.user) != {}
    ensures SessionsOk(ApplyLedger(d, s))
  {
    var d', mine := ApplyLedger(d, s), OwnedBy(d, s.user);
    forall sid | sid in d'.sessions ensures SessionOk(d', d'.sessions[sid]) {
      var m := d.sessions[sid];
      assert SessionOk(d, m);
      assert m.account !in mine;
      var all, all' := d.txs + m.adds, d'.txs + m.adds;
      assert forall x | x in all' :: x in all && all[x] == all'[x];
    }
  }

  lemma CleanupKeeps(d: Db, s: LedgerStep)
    requires s.Cleanup? && LedgerInv(d) && Allowed(d, s)
    ensures LedgerInv(ApplyLedger(d, s))
  {
    if GeneratedIds(d, s.user) != {} {
      CleanupConserves(d, s);
      CleanupSessions(d, s);
    }
  }

  /** Every transaction that a step makes visible has an untouched job, due at once, and exactly
      one ingest audit. */
  ghost predicate NewOnesQueued(d: Db, d': Db) {
    forall x | x in d'.txs && x !in d.txs ::
      && x in d'.jobs.rows && Due(d'.jobs.rows[x]) && d'.audits[Audit(Ingested, x)] == 1
  }

  lemma NewTxsQueued(d: Db, s: LedgerStep)
    requires Allowed(d, s) && LedgerInv(ApplyLedger(d, s))
    ensures NewOnesQueued(d, ApplyLedger(d, s))
  {
    var d' := ApplyLedger(d, s);
    forall x | x in d'.txs && x !in d.txs
      ensures x in d'.jobs.issued && Due(d'.jobs.rows[x])
    {
      assert s.Commit? && x in NewJobs(d.sessions[s.sid].adds, s.now);
    }
  }

  /** Conservation, uniqueness of external ids, one job and one ingest audit per ingested
      transaction: kept by every interleaving of open sessions, corrections and cleanup. */
  lemma LedgerStepKeeps(d: Db, s: LedgerStep)
    requires LedgerInv(d) && Allowed(d, s)
    ensures LedgerInv(ApplyLedger(d, s)) && NewOnesQueued(d, ApplyLedger(d, s))
  {
    LedgerStepInv(d, s);
    NewTxsQueued(d, s);
  }

  lemma LedgerStepInv(d: Db, s: LedgerStep)
    requires LedgerInv(d) && Allowed(d, s)
    ensures LedgerInv(ApplyLedger(d, s))
  {
    match s
    case Begin(_, _) => BeginKeeps(d, s);
    case Add(_, _, _) => AddKeeps(d, s);
    case Commit(_, _) => CommitKeeps(d, s);
    case Rollback(_) =>
      forall sid | sid in d.sessions ensures SessionOk(d, d.sessions[sid]) {}
      forall sid | sid in ApplyLedger(d, s).sessions ensures SessionOk(ApplyLedger(d, s), d.sessions[sid]) {}
    case Recategorize(_, _, _) => SameLedgerKeeps(d, ApplyLedger(d, s));
    case Cleanup(_) => CleanupKeeps(d, s);
  }

  // ---------------------------------------------------------------- demo seeding

  /** The demo generator reads balances without a lock and later writes what it read plus its
      rows; an account whose balance does not change is not written. */
  ghost function SeedCommit(d: Db, read: map<Id, int>, rows: map<Id, Tx>): Db {
    d.(txs := d.txs + rows, used := d.used + rows.Keys,
       accounts := map a | a in d.accounts ::
         if a in read && Sum(rows, a) != 0 then d.accounts[a].(balance := read[a] + Sum(rows, a)) else d.accounts[a])
  }

  lemma SeededBalance(d: Db, read: map<Id, int>, rows: map<Id, Tx>, a: Id)
    requires Conserved(d) && rows.Keys !! d.txs.Keys && a in d.accounts
    requires forall x | x in rows :: rows[x].account in read
    ensures var d' := SeedCommit(d, read, rows);
      (d'.accounts[a].balance == Sum(d'.txs, a))
        == (a in read ==> read[a] == d.accounts[a].balance || Sum(rows, a) == 0)
  {
    SumUnion(d.txs, rows, a);
    if a !in read { SumElsewhere(rows, a); }
  }

  /** Seeding keeps the ledger conserved exactly when every balance it rewrites is still the
      one it read. */
  lemma SeedConservesIff(d: Db, read: map<Id, int>, rows: map<Id, Tx>)
    requires Conserved(d) && rows.Keys !! d.txs.Keys && read.Keys <= d.accounts.Keys
    requires forall x | x in rows :: rows[x].account in read
    ensures Conserved(SeedCommit(d, read, rows))
       <==> forall a | a in read :: read[a] == d.accounts[a].balance || Sum(rows, a) == 0
  {
    var d' := SeedCommit(d, read, rows);
    forall a | a in d.accounts
      ensures (d'.accounts[a].balance == Sum(d'.txs, a))
              == (a in read ==> read[a] == d.accounts[a].balance || Sum(rows, a) == 0)
    {
      SeededBalance(d, read, rows, a);
    }
  }

  /** The demo user's two accounts; an ingest into the credit account is not committed yet. */
  ghost function RaceDb(): Db {
    Db(map[2 := Account(1, "Everyday Checking", Some("First Demo Bank"), "USD", 0),
           5 := Account(1, "Rewards Credit Card", Some("First Demo Bank"), "USD", 0)],
       map[], multiset{}, EMPTY, EMPTY, map[], map[3 := Session(5, -1250, map[4 := Lunch()])], {4})
  }

  function Lunch(): Tx { NewTx(5, "USD", Payload("bank-1", -1250, "USD", "DOORDASH*CHIPOTLE", 0)) }

  /** The one row the generator writes for no months and no random transactions. */
  function Outlier(): Tx {
    Tx(5, "seed_42_outlier", -482_000, "USD", "LUXURY WATCH BOUTIQUE", 0, Categorized, Some("shopping"), Some(Rules),
       Some(0.94), Some(0))
  }

  lemma LoneSum(x: Id, tx: Tx, a: Id)
    ensures Sum(map[x := tx], a) == AmountFor(tx, a) && Sum(map[], a) == 0
  {
    SumWithout(map[x := tx], x, a);
    assert map[x := tx] - {x} == map[];
  }

  lemma RaceDbOk()
    ensures LedgerInv(RaceDb())
  {
    var d := RaceDb();
    LoneSum(4, Lunch(), 5);
    LoneSum(4, Lunch(), 2);
    assert d.txs + d.sessions[3].adds == d.sessions[3].adds;
    assert SessionOk(d, d.sessions[3]);
  }

  /** The race exists: the generator found no transaction and read both balances as 0, then the
      open ingest committed; writing the stale credit balance with the outlier loses it. */
  lemma SeedRaceLosesAnIngest()
    ensures LedgerInv(RaceDb()) && RaceDb().txs == map[] && Allowed(RaceDb(), Commit(3, 0))
    ensures forall a | a in RaceDb().accounts :: RaceDb().accounts[a].balance == 0
    ensures !Conserved(SeedCommit(ApplyLedger(RaceDb(), Commit(3, 0)), map[2 := 0, 5 := 0], map[6 := Outlier()]))
  {
    RaceDbOk();
    CommitKeeps(RaceDb(), Commit(3, 0));
    var d', read, rows := ApplyLedger(RaceDb(), Commit(3, 0)), map[2 := 0, 5 := 0], map[6 := Outlier()];
    assert d'.txs.Keys == {4} && d'.accounts[5].balance == -1250;
    LoneSum(6, Outlier(), 5);
    SeedConservesIff(d', read, rows);
    assert read[5] != d'.accounts[5].balance && Sum(rows, 5) != 0;
  }
}
