/** The transactions service and its worker, statement by statement, against the step system. */
module Service {
  import opened Common
  import opened Work
  import opened Leases
  import opened Store
  import opened Ledger
  import opened Enrichment

  /** The session after `SELECT ... FOR UPDATE` on the account. */
  function Opened(d: Db, sid: Id, account: Id): Db
    requires account in d.accounts
  {
    if sid in d.sessions then d
    else d.(sessions := d.sessions[sid := Session(account, d.accounts[account].balance, map[])])
  }

  predicate InSession(d: Db, sid: Id, account: Id) {
    account in d.accounts && sid in d.sessions && d.sessions[sid].account == account
  }

  /** A batch of ingests inside one session. */
  function AddAll(d: Db, sid: Id, account: Id, rows: seq<Payload>, ids: seq<Id>): (r: Db)
    requires InSession(d, sid, account) && |rows| <= |ids|
    ensures InSession(r, sid, account)
  {
    if rows == [] then d
    else AddTx(AddAll(d, sid, account, rows[..|rows| - 1], ids), sid, ids[|rows| - 1], rows[|rows| - 1])
  }

  predicate Known(d: Db, sid: Id, account: Id, extId: string)
    requires sid in d.sessions
  {
    HasExt(d.txs, account, extId) || HasExt(d.sessions[sid].adds, account, extId)
  }

  predicate Names(d: Db, sid: Id, id: Id, account: Id, extId: string)
    requires sid in d.sessions
  {
    (id in d.txs && d.txs[id].account == account && d.txs[id].extId == extId)
    || (id in d.sessions[sid].adds && d.sessions[sid].adds[id].account == account
        && d.sessions[sid].adds[id].extId == extId)
  }

  datatype ImportResult = ImportResult(created: int, skipped: int, ids: seq<Id>)

  class TransactionsService {
    const anomalyThreshold: real
    var accounts: map<Id, Account>
    var txs: map<Id, Tx>
    var audits: multiset<Audit>
    var jobs: Queue
    var outbox: Queue
    var events: map<Id, Event>
    var sessions: map<Id, Session>
    var used: set<Id>

    constructor (d: Db, anomalyThreshold: real)
      ensures State() == d && this.anomalyThreshold == anomalyThreshold
    {
      accounts, txs, audits, jobs := d.accounts, d.txs, d.audits, d.jobs;
      outbox, events, sessions, used := d.outbox, d.events, d.sessions, d.used;
      this.anomalyThreshold := anomalyThreshold;
    }

    function State(): Db
      reads this
    {
      Db(accounts, txs, audits, jobs, outbox, events, sessions, used)
    }

    /** Another committed state of the database. */
    method Become(d: Db)
      modifies this
      ensures State() == d
    {
      accounts, txs, audits, jobs := d.accounts, d.txs, d.audits, d.jobs;
      outbox, events, sessions, used := d.outbox, d.events, d.sessions, d.used;
    }

    method SetOutbox(q: Queue)
      modifies this`outbox
      ensures outbox == q
    {
      outbox := q;
    }

    method SetAccounts(m: map<Id, Account>)
      modifies this`accounts
      ensures accounts == m
    {
      accounts := m;
    }

    /** Deletes transactions; their jobs and outbox rows go with them. */
    method RemoveRows(ids: set<Id>)
      modifies this`txs, this`jobs, this`outbox
      ensures txs == old(txs) - ids && jobs == old(jobs).(rows := old(jobs).rows - ids)
      ensures outbox == old(outbox).(rows := WithoutRowsOf(old(outbox).rows, events, ids))
    {
      txs := txs - ids;
      jobs := jobs.(rows := jobs.rows - ids);
      outbox := outbox.(rows := WithoutRowsOf(outbox.rows, events, ids));
    }

    method SetJobs(q: Queue)
      modifies this`jobs
      ensures jobs == q
    {
      jobs := q;
    }

    /** Ingests one transaction in session `sid`; None is the not-found error. */
    method Ingest(sid: Id, account: Id, user: Id, p: Payload, id: Id) returns (r: Option<(Id, bool)>)
      requires sid in sessions ==> sessions[sid].account == account
      modifies this
      ensures r.None? <==> account !in old(accounts) || old(accounts)[account].user != user
      ensures r.None? ==> State() == old(State())
      ensures r.Some? ==>
        account in old(State()).accounts && InSession(Opened(old(State()), sid, account), sid, account)
      ensures r.Some? ==> State() == AddTx(Opened(old(State()), sid, account), sid, id, p)
      ensures r.Some? ==> r.value.1 == !Known(Opened(old(State()), sid, account), sid, account, p.extId)
      ensures r.Some? ==> Names(State(), sid, r.value.0, account, p.extId)
    {
      if account !in accounts || accounts[account].user != user { return None; }
      if sid !in sessions {
        sessions := sessions[sid := Session(account, accounts[account].balance, map[])];
      }
      if x :| x in txs && txs[x].account == account && txs[x].extId == p.extId {
        return Some((x, false));
      }
      var adds := sessions[sid].adds;
      if x :| x in adds && adds[x].account == account && adds[x].extId == p.extId {
        return Some((x, false));
      }
      var tx := NewTx(account, accounts[account].currency, p);
      var session := sessions[sid];
      session := session.(adds := session.adds[id := tx]);
      session := session.(balance := session.balance + p.amount);
      sessions := sessions[sid := session];
      used := used + {id};
      r := Some((id, true));
    }

    /** Makes the rows of a session visible with their balance, jobs and audit entries. */
    method CommitOpen(sid: Id, now: Instant)
      requires sid in sessions && sessions[sid].account in accounts
      modifies this
      ensures State() == CommitSession(old(State()), sid, now)
    {
      var session := sessions[sid];
      txs := txs + session.adds;
      jobs := InsertRows(jobs, NewJobs(session.adds, now));
      accounts := accounts[session.account := accounts[session.account].(balance := session.balance)];
      audits := audits + AuditsFor(Ingested, session.adds.Keys);
      sessions := sessions - {sid};
    }

    /** Ingests one transaction and commits: row, balance, audit entry and job become visible
        together, or, for an external id already known, nothing changes. */
    method CreateTransaction(sid: Id, account: Id, user: Id, p: Payload, id: Id, now: Instant)
      returns (r: Option<(Id, bool)>)
      requires sid !in sessions && id !in used && id !in txs && id !in jobs.rows
      modifies this
      ensures r.None? <==> account !in old(accounts) || old(accounts)[account].user != user
      ensures r.None? ==> State() == old(State())
      ensures r.Some? ==> account in old(accounts)
      ensures r.Some? ==> r.value.1 == !HasExt(old(txs), account, p.extId)
      ensures r.Some? && !r.value.1 ==> r.value.0 in old(txs) && Unchanged(old(State()), State())
      ensures r.Some? && r.value.1 ==> r.value.0 == id
      ensures r.Some? && r.value.1 ==>
        Queued(old(State()), State(), account, id, NewTx(account, old(accounts)[account].currency, p), now)
    {
      ghost var d := State();
      r := Ingest(sid, account, user, p, id);
      if r.None? { return; }
      ghost var open := State();
      CommitOpen(sid, now);
      if r.value.1 {
        CommitQueues(d, sid, account, id, p, now);
      } else {
        EmptyCommit(d, sid, account, now);
      }
    }

    /** Imports a validated batch in one transaction: all of it becomes visible, or none. */
    method ImportTransactions(sid: Id, account: Id, user: Id, rows: seq<Payload>, ids: seq<Id>, now: Instant)
      returns (r: Option<ImportResult>)
      requires sid !in sessions && |rows| <= |ids| && rows != [] && FreshIds(ids, used)
      modifies this
      ensures r.None? <==> account !in old(accounts) || old(accounts)[account].user != user
      ensures r.None? ==> State() == old(State())
      ensures r.Some? ==>
        && account in old(State()).accounts
        && var start := Opened(old(State()), sid, account);
           && State() == CommitSession(AddAll(start, sid, account, rows, ids), sid, now)
           && r.value.created == CountNew(start, sid, account, rows, ids)
           && r.value.created + r.value.skipped == |rows|
           && AllNamed(AddAll(start, sid, account, rows, ids), sid, account, r.value.ids, rows)
    {
      if account !in accounts || accounts[account].user != user { return None; }
      var created, named := IngestRows(sid, account, user, rows, ids);
      CommitOpen(sid, now);
      r := Some(ImportResult(created, |rows| - created, named));
    }

    method IngestRows(sid: Id, account: Id, user: Id, rows: seq<Payload>, ids: seq<Id>)
      returns (created: int, named: seq<Id>)
      requires account in accounts && accounts[account].user == user && rows != [] && |rows| <= |ids|
      requires sid !in sessions && FreshIds(ids, used)
      modifies this
      ensures var start := Opened(old(State()), sid, account);
        && State() == AddAll(start, sid, account, rows, ids)
        && created == CountNew(start, sid, account, rows, ids)
        && AllNamed(AddAll(start, sid, account, rows, ids), sid, account, named, rows)
    {
      ghost var start := Opened(State(), sid, account);
      created, named := 0, [];
      var k := 0;
      while k < |rows|
        invariant 0 <= k <= |rows| && InSession(start, sid, account)
        invariant account in accounts && accounts[account].user == user
        invariant sid in sessions <==> k > 0
        invariant sid in sessions ==> sessions[sid].account == account
        invariant Opened(State(), sid, account) == AddAll(start, sid, account, rows[..k], ids)
        invariant AllFresh(State(), sid, ids[k..])
        invariant created == CountNew(start, sid, account, rows[..k], ids)
        invariant AllNamed(AddAll(start, sid, account, rows[..k], ids), sid, account, named, rows[..k])
      {
        ghost var before := Opened(State(), sid, account);
        ghost var rest := ids[k..];
        var result := Ingest(sid, account, user, rows[k], ids[k]);
        AddNext(start, sid, account, rows, ids, k, named, result.value.0);
        StillFresh(before, sid, ids, rows[k], k);
        if result.value.1 { created := created + 1; }
        named := named + [result.value.0];
        k := k + 1;
      }
      assert rows[..|rows|] == rows;
    }

    method RecategorizeByUser(id: Id, slug: string, user: Id, now: Instant) returns (ok: bool)
      modifies this
      ensures ok ==> id in old(txs) && old(txs)[id].account in old(accounts)
      ensures id in old(txs) && old(txs)[id].account in old(accounts) ==>
        (ok <==> old(accounts)[old(txs)[id].account].user == user)
      ensures !ok ==> State() == old(State())
      ensures ok ==> Allowed(old(State()), Recategorize(id, slug, now))
                     && State() == ApplyLedger(old(State()), Recategorize(id, slug, now))
      ensures ok ==> id in old(txs) && id in txs && var (was, tx) := (old(txs)[id], txs[id]);
        && tx.category == Some(slug) && tx.source == Some(User) && tx.status.Categorized? && tx.score == was.score
        && (tx.categorizedAt == if was.categorizedAt.Some? then was.categorizedAt else Some(now))
        && tx.account == was.account && tx.extId == was.extId && tx.amount == was.amount
        && tx.currency == was.currency && tx.description == was.description && tx.occurredAt == was.occurredAt
        && txs == old(txs)[id := tx] && audits == old(audits) + multiset{Audit(Recategorized, id)}
    {
      if id !in txs { return false; }
      var tx := txs[id];
      if tx.account !in accounts || accounts[tx.account].user != user { return false; }
      tx := tx.(category := Some(slug));
      tx := tx.(source := Some(User));
      tx := tx.(status := Categorized);
      if tx.categorizedAt.None? { tx := tx.(categorizedAt := Some(now)); }
      txs := txs[id := tx];
      audits := audits + multiset{Audit(Recategorized, id)};
      ok := true;
    }

    /** The worker's second transaction: apply the result, write the events, finish the job. */
    method CommitEnrichment(claim: WorkClaim, now: Instant, result: Classification, score: real, at: Instant,
                            ids: seq<Id>, stamps: seq<Instant>) returns (owned: bool)
      requires |ids| == 2 && |stamps| == 2 && ids[0] != ids[1] && ids[0] !in events && ids[1] !in events
      modifies this
      ensures owned <==> Owns(old(State()).jobs.rows, claim, now)
      ensures !owned ==> State() == old(State())
      ensures owned ==>
        var s := WorkStep.CommitEnrichment(claim, now, result, score, at, ids, stamps);
        CanWork(old(State()), s) && State() == ApplyWork(old(State()), s, anomalyThreshold)
      ensures owned && claim.id in old(txs) && !old(txs)[claim.id].status.Categorized? ==>
        claim.id in txs && HoldsResult(old(txs)[claim.id], txs[claim.id], result, score, at)
      ensures owned && LedgerInv(old(State())) && EnrichInv(old(State()), anomalyThreshold) ==>
        Recorded(old(State()), State(), claim.id, result, score, at, anomalyThreshold)
    {
      var row := if claim.id in jobs.rows then Some(jobs.rows[claim.id]) else None;
      if !(row.Some? && row.value.lockToken == Some(claim.token) && row.value.completedAt.None?
           && row.value.lockedUntil.Some? && row.value.lockedUntil.value > now) {
        return false;
      }
      ApplyResult(claim.id, result, score, at);
      Announce(claim, ids, stamps);
      assert State() == EnrichTx(old(State()), claim, result, score, at, ids, stamps, anomalyThreshold);
      jobs := jobs.(rows := jobs.rows[claim.id := jobs.rows[claim.id].(
                      completedAt := Some(at), lockedUntil := None, lockToken := None, lastError := None)]);
      owned := true;
      NowRecorded(old(State()), claim, now, result, score, at, ids, stamps, anomalyThreshold);
    }

    /** The columns of a transaction that is not categorized yet, and its audit entry. */
    method ApplyResult(id: Id, result: Classification, score: real, at: Instant)
      modifies this`txs, this`audits
      ensures State() == Categorize(old(State()), id, result, score, at)
    {
      if id in txs && !txs[id].status.Categorized? {
        var tx := txs[id];
        tx := tx.(category := Some(result.slug), source := Some(if result.fromLlm then Llm else Rules));
        tx := tx.(score := Some(score));
        tx := tx.(status := Categorized, categorizedAt := Some(at));
        txs := txs[id := tx];
        audits := audits + multiset{Audit(CategorizedByWorker, id)};
      }
    }

    method Announce(claim: WorkClaim, ids: seq<Id>, stamps: seq<Instant>)
      requires |ids| == 2 && |stamps| == 2 && ids[0] != ids[1] && ids[0] !in events && ids[1] !in events
      modifies this`outbox, this`events
      ensures State() ==
        if claim.id in txs
        then InsertEvents(old(State()), BuildEvents(accounts, claim.id, txs[claim.id], anomalyThreshold), ids, stamps)
        else old(State())
    {
      if claim.id in txs {
        var es := BuildEvents(accounts, claim.id, txs[claim.id], anomalyThreshold);
        WriteEvents(es, ids, stamps);
      }
    }

    /** Inserts each event the transaction has no row for, one at a time. */
    method WriteEvents(es: seq<Event>, ids: seq<Id>, stamps: seq<Instant>)
      requires |es| <= 2 && |ids| == 2 && |stamps| == 2 && ids[0] != ids[1] && ids[0] !in events && ids[1] !in events
      requires |es| == 2 ==> es[0].TransactionAnomalyFlagged? != es[1].TransactionAnomalyFlagged?
      modifies this`outbox, this`events
      ensures State() == InsertEvents(old(State()), es, ids, stamps)
    {
      ghost var d := State();
      var k := 0;
      InsertNone(d, ids, stamps);
      while k < |es|
        invariant 0 <= k <= |es|
        invariant State() == InsertEvents(d, es[..k], ids, stamps)
      {
        ghost var before := InsertEvents(d, es[..k], ids, stamps);
        assert outbox == before.outbox && events == before.events;
        LookingBeforeIsEnough(d, es, ids, stamps, k);
        InsertOneMore(d, es, ids, stamps, k);
        if !HasRow(outbox.rows, events, es[k].tx, es[k].TransactionAnomalyFlagged?) {
          events := events[ids[k] := es[k]];
          outbox := outbox.(rows := outbox.rows[ids[k] := NewOutboxRow(es[k], stamps[k])],
                            issued := outbox.issued[ids[k] := []]);
        }
        k := k + 1;
      }
      assert es[..|es|] == es;
    }
  }

  // ---------------------------------------------------------------- what one commit amounts to

  lemma NowRecorded(d: Db, claim: WorkClaim, now: Instant, result: Classification, score: real, at: Instant,
                    ids: seq<Id>, stamps: seq<Instant>, threshold: real)
    requires CanWork(d, WorkStep.CommitEnrichment(claim, now, result, score, at, ids, stamps))
    ensures claim.id in d.txs && !d.txs[claim.id].status.Categorized? ==>
      var d' := ApplyWork(d, WorkStep.CommitEnrichment(claim, now, result, score, at, ids, stamps), threshold);
      claim.id in d'.txs && HoldsResult(d.txs[claim.id], d'.txs[claim.id], result, score, at)
    ensures LedgerInv(d) && EnrichInv(d, threshold) ==>
      var d' := ApplyWork(d, WorkStep.CommitEnrichment(claim, now, result, score, at, ids, stamps), threshold);
      Recorded(d, d', claim.id, result, score, at, threshold)
  {
    if LedgerInv(d) && EnrichInv(d, threshold) {
      CommitRecords(d, WorkStep.CommitEnrichment(claim, now, result, score, at, ids, stamps), threshold);
    }
  }

  ghost predicate Unchanged(d: Db, d': Db) {
    d'.accounts == d.accounts && d'.txs == d.txs && d'.audits == d.audits && d'.jobs == d.jobs && d'.outbox == d.outbox
    && d'.events == d.events && d'.used == d.used && d'.sessions == d.sessions
  }

  /** Between the two states exactly one transaction was ingested, with its balance change, its
      audit entry and its job. */
  ghost predicate Queued(d: Db, d': Db, account: Id, id: Id, tx: Tx, now: Instant)
    requires account in d.accounts
  {
    && d'.txs == d.txs[id := tx]
    && d'.accounts == d.accounts[account := d.accounts[account].(balance := d.accounts[account].balance + tx.amount)]
    && d'.audits == d.audits + multiset{Audit(Ingested, id)}
    && d'.jobs.rows == d.jobs.rows[id := NewJob(now)]
    && d'.outbox == d.outbox && d'.events == d.events && d'.sessions == d.sessions
  }

  lemma CommitOne(d: Db, sid: Id, account: Id, balance: int, id: Id, tx: Tx, now: Instant)
    requires sid in d.sessions && d.sessions[sid] == Session(account, balance, map[id := tx]) && account in d.accounts
    ensures var d' := CommitSession(d, sid, now);
      && d'.txs == d.txs[id := tx]
      && d'.audits == d.audits + multiset{Audit(Ingested, id)}
      && d'.jobs.rows == d.jobs.rows[id := NewJob(now)]
  {
    assert d.txs + map[id := tx] == d.txs[id := tx];
    assert NewJobs(map[id := tx], now) == map[id := NewJob(now)];
    assert d.jobs.rows + map[id := NewJob(now)] == d.jobs.rows[id := NewJob(now)];
    assert (set x | x in map[id := tx].Keys :: Audit(Ingested, x)) == {Audit(Ingested, id)};
  }

  lemma CommitQueues(d: Db, sid: Id, account: Id, id: Id, p: Payload, now: Instant)
    requires sid !in d.sessions && account in d.accounts && !HasExt(d.txs, account, p.extId)
    ensures Queued(d, CommitSession(AddTx(Opened(d, sid, account), sid, id, p), sid, now), account, id,
                   NewTx(account, d.accounts[account].currency, p), now)
  {
    var tx := NewTx(account, d.accounts[account].currency, p);
    var open := AddTx(Opened(d, sid, account), sid, id, p);
    assert open.sessions[sid].adds == map[id := tx];
    CommitOne(open, sid, account, d.accounts[account].balance + p.amount, id, tx, now);
    assert open.sessions - {sid} == d.sessions;
  }

  lemma EmptyCommit(d: Db, sid: Id, account: Id, now: Instant)
    requires sid !in d.sessions && account in d.accounts
    ensures Unchanged(d, CommitSession(Opened(d, sid, account), sid, now))
  {
    var open := Opened(d, sid, account);
    var none: map<Id, Tx> := map[];
    assert open.sessions[sid].adds == none && AuditsFor(Ingested, none.Keys) == multiset{};
    assert NewJobs(none, now) == map[] && NoIssues(NewJobs(none, now)) == map[];
    assert d.txs + none == d.txs && d.accounts[account := d.accounts[account]] == d.accounts;
    assert InsertRows(d.jobs, NewJobs(none, now)) == d.jobs;
    assert open.sessions - {sid} == d.sessions;
  }

  // ---------------------------------------------------------------- what the loops rely on

  function CountNew(d: Db, sid: Id, account: Id, rows: seq<Payload>, ids: seq<Id>): nat
    requires InSession(d, sid, account) && |rows| <= |ids|
  {
    if rows == [] then 0
    else
      var n := |rows| - 1;
      CountNew(d, sid, account, rows[..n], ids)
      + if Known(AddAll(d, sid, account, rows[..n], ids), sid, account, rows[n].extId) then 0 else 1
  }

  predicate FreshIds(ids: seq<Id>, used: set<Id>) {
    (forall i, j | 0 <= i < j < |ids| :: ids[i] != ids[j]) && forall i | 0 <= i < |ids| :: ids[i] !in used
  }

  /** None of `ids` is taken, in the database or in the open session. */
  predicate AllFresh(d: Db, sid: Id, ids: seq<Id>) {
    && (forall i, j | 0 <= i < j < |ids| :: ids[i] != ids[j])
    && (forall i | 0 <= i < |ids| :: sid in d.sessions ==> ids[i] !in d.sessions[sid].adds)
  }

  /** `named[i]` is the transaction of the account under row `i`'s external id. */
  predicate AllNamed(d: Db, sid: Id, account: Id, named: seq<Id>, rows: seq<Payload>)
    requires sid in d.sessions
  {
    |named| == |rows| && forall i | 0 <= i < |rows| :: Names(d, sid, named[i], account, rows[i].extId)
  }

  lemma StillFresh(d: Db, sid: Id, ids: seq<Id>, p: Payload, k: nat)
    requires k < |ids| && sid in d.sessions && d.sessions[sid].account in d.accounts && AllFresh(d, sid, ids[k..])
    ensures AllFresh(AddTx(d, sid, ids[k], p), sid, ids[k + 1..])
  {
    var rest := ids[k..];
    assert ids[k + 1..] == rest[1..] && ids[k] == rest[0];
  }

  /** One more row: the batch, its count and its named ids each grow by that row. */
  lemma AddNext(start: Db, sid: Id, account: Id, rows: seq<Payload>, ids: seq<Id>, k: nat, named: seq<Id>, id: Id)
    requires InSession(start, sid, account) && k < |rows| <= |ids|
    requires var d := AddAll(start, sid, account, rows[..k], ids);
      && AllFresh(d, sid, ids[k..]) && AllNamed(d, sid, account, named, rows[..k])
      && Names(AddTx(d, sid, ids[k], rows[k]), sid, id, account, rows[k].extId)
    ensures var d := AddAll(start, sid, account, rows[..k], ids);
      && AddAll(start, sid, account, rows[..k + 1], ids) == AddTx(d, sid, ids[k], rows[k])
      && CountNew(start, sid, account, rows[..k + 1], ids)
         == CountNew(start, sid, account, rows[..k], ids) + (if Known(d, sid, account, rows[k].extId) then 0 else 1)
      && AllNamed(AddAll(start, sid, account, rows[..k + 1], ids), sid, account, named + [id], rows[..k + 1])
  {
    assert rows[..k + 1][..k] == rows[..k] && rows[..k + 1][k] == rows[k];
    var d := AddAll(start, sid, account, rows[..k], ids);
    assert ids[k..][0] == ids[k];
    NamesStay(d, sid, ids[k], rows[k], account, named, rows[..k]);
  }

  /** A later ingest of the session leaves the rows already named alone. */
  lemma NamesStay(d: Db, sid: Id, id: Id, p: Payload, account: Id, named: seq<Id>, rows: seq<Payload>)
    requires InSession(d, sid, account) && id !in d.sessions[sid].adds && AllNamed(d, sid, account, named, rows)
    ensures AllNamed(AddTx(d, sid, id, p), sid, account, named, rows)
  {
    forall i | 0 <= i < |rows| ensures Names(AddTx(d, sid, id, p), sid, named[i], account, rows[i].extId) {
      assert Names(d, sid, named[i], account, rows[i].extId);
    }
  }

  lemma OtherTypeUnseen(rows: Table, events: map<Id, Event>, r: Table, p: map<Id, Event>, tx: Id, anomaly: bool)
    requires r.Keys == p.Keys && p.Keys !! events.Keys && forall o | o in p ::
      p[o].TransactionAnomalyFlagged? != anomaly
    ensures HasRow(rows + r, events + p, tx, anomaly) == HasRow(rows, events, tx, anomaly)
  {
    if o :| o in rows && o in events && events[o].tx == tx && events[o].TransactionAnomalyFlagged? == anomaly {
      assert o in rows + r && (events + p)[o] == events[o];
    }
  }

  /** What the first events of a list add: nothing of the type of the next one. */
  lemma AddedSoFar(d: Db, es: seq<Event>, ids: seq<Id>, stamps: seq<Instant>, k: nat)
    requires k < |es| <= 2 && |ids| == 2 && |stamps| == 2 && ids[0] !in d.events
    requires |es| == 2 ==> es[0].TransactionAnomalyFlagged? != es[1].TransactionAnomalyFlagged?
    ensures var r, p := AddedRows(d, es[..k], ids, stamps), AddedEvents(d, es[..k], ids);
      r.Keys == p.Keys && p.Keys !! d.events.Keys && forall o | o in p ::
        p[o].TransactionAnomalyFlagged? != es[k].TransactionAnomalyFlagged?
  {
    if k == 1 {
      assert es[..1][..0] == [] && es[..1][0] == es[0];
      assert AddedRows(d, [], ids, stamps) == map[] && AddedEvents(d, [], ids) == map[];
    }
  }

  lemma LookingBeforeIsEnough(d: Db, es: seq<Event>, ids: seq<Id>, stamps: seq<Instant>, k: nat)
    requires k < |es| <= 2 && |ids| == 2 && |stamps| == 2 && ids[0] !in d.events
    requires |es| == 2 ==> es[0].TransactionAnomalyFlagged? != es[1].TransactionAnomalyFlagged?
    ensures var anomaly := es[k].TransactionAnomalyFlagged?;
      HasEvent(InsertEvents(d, es[..k], ids, stamps), es[k].tx, anomaly) == HasEvent(d, es[k].tx, anomaly)
  {
    AddedSoFar(d, es, ids, stamps, k);
    OtherTypeUnseen(d.outbox.rows, d.events, AddedRows(d, es[..k], ids, stamps), AddedEvents(d, es[..k], ids),
                    es[k].tx, es[k].TransactionAnomalyFlagged?);
  }

  lemma InsertNone(d: Db, ids: seq<Id>, stamps: seq<Instant>)
    ensures InsertEvents(d, [], ids, stamps) == d
  {
    assert d.events + map[] == d.events && d.outbox.rows + map[] == d.outbox.rows;
    assert d.outbox.issued + NoIssues(map[]) == d.outbox.issued;
  }

  lemma PutLast<V>(m: map<Id, V>, a: map<Id, V>, id: Id, v: V)
    ensures m + a[id := v] == (m + a)[id := v]
  {}

  lemma InsertLast(q: Queue, a: Table, id: Id, row: Row)
    ensures InsertRows(q, a[id := row])
         == InsertRows(q, a).(rows := InsertRows(q, a).rows[id := row], issued := InsertRows(q, a).issued[id := []])
  {
    PutLast(q.rows, a, id, row);
    PutLast(q.issued, NoIssues(a), id, []);
    assert NoIssues(a[id := row]) == NoIssues(a)[id := []];
  }

  lemma InsertOneMore(d: Db, es: seq<Event>, ids: seq<Id>, stamps: seq<Instant>, k: nat)
    requires k < |es| <= 2 && |ids| == 2 && |stamps| == 2
    ensures var before := InsertEvents(d, es[..k], ids, stamps);
      InsertEvents(d, es[..k + 1], ids, stamps)
        == if HasEvent(d, es[k].tx, es[k].TransactionAnomalyFlagged?) then before
           else before.(events := before.events[ids[k] := es[k]],
                        outbox := before.outbox.(rows := before.outbox.rows[ids[k] := NewOutboxRow(es[k], stamps[k])],
                                                 issued := before.outbox.issued[ids[k] := []]))
  {
    assert es[..k + 1][..k] == es[..k] && es[..k + 1][k] == es[k];
    InsertLast(d.outbox, AddedRows(d, es[..k], ids, stamps), ids[k], NewOutboxRow(es[k], stamps[k]));
    PutLast(d.events, AddedEvents(d, es[..k], ids), ids[k], es[k]);
  }

  // ---------------------------------------------------------------- replays

  lemma {:induction false} AddAllKnows(d: Db, sid: Id, account: Id, rows: seq<Payload>, ids: seq<Id>, k: nat)
    requires InSession(d, sid, account) && |rows| <= |ids| && k < |rows| && AllFresh(d, sid, ids)
    ensures Known(AddAll(d, sid, account, rows, ids), sid, account, rows[k].extId)
    decreases |rows|
  {
    var n := |rows| - 1;
    var before := AddAll(d, sid, account, rows[..n], ids);
    if k < n {
      AddAllKnows(d, sid, account, rows[..n], ids, k);
      assert rows[..n][k] == rows[k];
      NextIsUnused(d, sid, account, rows[..n], ids, n);
      KnownStays(before, sid, account, ids[n], rows[n], rows[k].extId);
    } else {
      KnownAfterAdd(before, sid, account, ids[n], rows[n]);
    }
  }

  lemma NextIsUnused(d: Db, sid: Id, account: Id, rows: seq<Payload>, ids: seq<Id>, n: nat)
    requires InSession(d, sid, account) && |rows| == n < |ids| && AllFresh(d, sid, ids)
    ensures ids[n] !in AddAll(d, sid, account, rows, ids).sessions[sid].adds
  {
    AddsAreTheirs(d, sid, account, rows, ids);
    assert ids[n] !in ids[..n];
  }

  lemma {:induction false} AddsAreTheirs(d: Db, sid: Id, account: Id, rows: seq<Payload>, ids: seq<Id>)
    requires InSession(d, sid, account) && |rows| <= |ids|
    ensures var r := AddAll(d, sid, account, rows, ids);
      r.txs == d.txs && forall x | x in r.sessions[sid].adds :: x in d.sessions[sid].adds || x in ids[..|rows|]
    decreases |rows|
  {
    if rows != [] {
      var n := |rows| - 1;
      AddsAreTheirs(d, sid, account, rows[..n], ids);
      assert ids[..|rows|] == ids[..n] + [ids[n]];
    }
  }

  lemma KnownStays(d: Db, sid: Id, account: Id, id: Id, p: Payload, extId: string)
    requires InSession(d, sid, account) && id !in d.sessions[sid].adds && Known(d, sid, account, extId)
    ensures Known(AddTx(d, sid, id, p), sid, account, extId)
  {
    var adds := d.sessions[sid].adds;
    if x :| x in adds && adds[x].account == account && adds[x].extId == extId {
      assert x in AddTx(d, sid, id, p).sessions[sid].adds;
    }
  }

  lemma KnownAfterAdd(d: Db, sid: Id, account: Id, id: Id, p: Payload)
    requires InSession(d, sid, account)
    ensures Known(AddTx(d, sid, id, p), sid, account, p.extId)
  {
    if !Known(d, sid, account, p.extId) { assert id in AddTx(d, sid, id, p).sessions[sid].adds; }
  }

  lemma {:induction false} KnownRowsAddNothing(d: Db, sid: Id, account: Id, rows: seq<Payload>, ids: seq<Id>)
    requires InSession(d, sid, account) && |rows| <= |ids|
    requires forall k | 0 <= k < |rows| :: Known(d, sid, account, rows[k].extId)
    ensures AddAll(d, sid, account, rows, ids) == d && CountNew(d, sid, account, rows, ids) == 0
    decreases |rows|
  {
    if rows != [] {
      var n := |rows| - 1;
      assert forall k | 0 <= k < n :: rows[..n][k] == rows[k];
      KnownRowsAddNothing(d, sid, account, rows[..n], ids);
    }
  }

  /** Every row of a committed import is in the ledger. */
  lemma ImportedRowIsKnown(d: Db, sid: Id, account: Id, rows: seq<Payload>, ids: seq<Id>, now: Instant, k: nat)
    requires InSession(d, sid, account) && k < |rows| <= |ids| && AllFresh(d, sid, ids)
    requires (forall i | 0 <= i < |ids| :: ids[i] !in d.txs) && d.txs.Keys !! d.sessions[sid].adds.Keys
    ensures HasExt(CommitSession(AddAll(d, sid, account, rows, ids), sid, now).txs, account, rows[k].extId)
  {
    var filled := AddAll(d, sid, account, rows, ids);
    AddsAreTheirs(d, sid, account, rows, ids);
    AddAllKnows(d, sid, account, rows, ids, k);
    forall x | x in filled.sessions[sid].adds ensures x !in filled.txs {
      if x !in d.sessions[sid].adds { assert x in ids[..|rows|]; }
    }
    KnownAfterCommit(filled, sid, account, now, rows[k].extId);
  }

  /** Importing a file again, in a later session, creates nothing and changes nothing. */
  lemma ReimportAddsNothing(d: Db, sid: Id, account: Id, rows: seq<Payload>, ids: seq<Id>, now: Instant, sid2: Id,
                            ids2: seq<Id>)
    requires InSession(d, sid, account) && |rows| <= |ids| && |rows| <= |ids2| && AllFresh(d, sid, ids)
    requires (forall i | 0 <= i < |ids| :: ids[i] !in d.txs) && d.txs.Keys !! d.sessions[sid].adds.Keys
    requires sid2 !in CommitSession(AddAll(d, sid, account, rows, ids), sid, now).sessions
    ensures var d1 := CommitSession(AddAll(d, sid, account, rows, ids), sid, now);
      var d2 := Opened(d1, sid2, account);
      AddAll(d2, sid2, account, rows, ids2) == d2 && CountNew(d2, sid2, account, rows, ids2) == 0
  {
    forall k | 0 <= k < |rows|
      ensures HasExt(CommitSession(AddAll(d, sid, account, rows, ids), sid, now).txs, account, rows[k].extId)
    {
      ImportedRowIsKnown(d, sid, account, rows, ids, now, k);
    }
    var d2 := Opened(CommitSession(AddAll(d, sid, account, rows, ids), sid, now), sid2, account);
    KnownRowsAddNothing(d2, sid2, account, rows, ids2);
  }

  lemma KnownAfterCommit(d: Db, sid: Id, account: Id, now: Instant, extId: string)
    requires InSession(d, sid, account) && Known(d, sid, account, extId) && d.txs.Keys !! d.sessions[sid].adds.Keys
    ensures HasExt(CommitSession(d, sid, now).txs, account, extId)
  {
    var adds := d.sessions[sid].adds;
    if x :| x in d.txs && d.txs[x].account == account && d.txs[x].extId == extId {
      assert x in d.txs + adds && (d.txs + adds)[x] == d.txs[x];
    } else if x :| x in adds && adds[x].account == account && adds[x].extId == extId {
      assert x in d.txs + adds;
    }
  }
}
