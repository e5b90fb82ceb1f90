/** The categorization worker: one commit applies a category, writes the events and finishes
    the job, fenced by the lease. */
module Enrichment {
  import opened Common
  import opened Work
  import opened Leases
  import opened Store
  import opened Ledger

  datatype Classification = Classification(slug: string, fromLlm: bool)

  function ScoreOrZero(tx: Tx): real { if tx.score.Some? then tx.score.value else 0.0 }

  function Enriched(tx: Tx, c: Classification, score: real, at: Instant): Tx {
    if tx.status.Categorized? then tx
    else tx.(category := Some(c.slug), source := Some(if c.fromLlm then Llm else Rules),
             score := Some(score), status := Categorized, categorizedAt := Some(at))
  }

  /** The events describing a categorized transaction. */
  function BuildEvents(accounts: map<Id, Account>, id: Id, tx: Tx, threshold: real): seq<Event> {
    if tx.account !in accounts then []
    else
      var user := accounts[tx.account].user;
      [TransactionCategorized(id, tx.account, user, tx.category, tx.source, tx.amount, tx.currency, tx.score,
                              tx.occurredAt)]
      + if ScoreOrZero(tx) >= threshold
        then [TransactionAnomalyFlagged(id, tx.account, user, tx.amount, tx.currency, ScoreOrZero(tx))]
        else []
  }

  predicate HasRow(rows: Table, events: map<Id, Event>, tx: Id, anomaly: bool) {
    exists o | o in rows :: o in events && events[o].tx == tx && events[o].TransactionAnomalyFlagged? == anomaly
  }

  predicate HasEvent(d: Db, tx: Id, anomaly: bool) { HasRow(d.outbox.rows, d.events, tx, anomaly) }

  function NewOutboxRow(e: Event, stamp: Instant): Row { Row(e.account, stamp, 0, stamp, None, None, None, None) }

  /** The rows a worker inserts: one per event whose type the transaction has no row of yet.
      The events of one list have distinct types, so looking before the first insert is enough. */
  function AddedRows(d: Db, es: seq<Event>, ids: seq<Id>, stamps: seq<Instant>): Table
    requires |es| <= |ids| && |es| <= |stamps|
  {
    if es == [] then map[]
    else
      var n := |es| - 1;
      var rest := AddedRows(d, es[..n], ids, stamps);
      if HasEvent(d, es[n].tx, es[n].TransactionAnomalyFlagged?) then rest
      else rest[ids[n] := NewOutboxRow(es[n], stamps[n])]
  }

  function AddedEvents(d: Db, es: seq<Event>, ids: seq<Id>): map<Id, Event>
    requires |es| <= |ids|
  {
    if es == [] then map[]
    else
      var n := |es| - 1;
      var rest := AddedEvents(d, es[..n], ids);
      if HasEvent(d, es[n].tx, es[n].TransactionAnomalyFlagged?) then rest else rest[ids[n] := es[n]]
  }

  function InsertEvents(d: Db, es: seq<Event>, ids: seq<Id>, stamps: seq<Instant>): Db
    requires |es| <= |ids| && |es| <= |stamps|
  {
    var added := AddedRows(d, es, ids, stamps);
    d.(events := d.events + AddedEvents(d, es, ids),
       outbox := InsertRows(d.outbox, added))
  }

  /** The transaction's columns and its audit entry; a missing or already categorized
      transaction is left alone. */
  function Categorize(d: Db, id: Id, c: Classification, score: real, at: Instant): Db {
    if id !in d.txs || d.txs[id].status.Categorized? then d
    else
      d.(txs := d.txs[id := Enriched(d.txs[id], c, score, at)],
         audits := d.audits + multiset{Audit(CategorizedByWorker, id)})
  }

  datatype WorkStep =
    | ClaimJob(id: Id, now: Instant, lease: int, token: Id, skip: set<Id>)
    | RetryJob(claim: WorkClaim, at: Instant, error: string)
    | CommitEnrichment(claim: WorkClaim, now: Instant, result: Classification, score: real, at: Instant,
                       ids: seq<Id>, stamps: seq<Instant>)
    | ClaimEvent(id: Id, now: Instant, lease: int, token: Id, skip: set<Id>)
    | RetryEvent(claim: WorkClaim, at: Instant, error: string)
    | CompleteEvent(claim: WorkClaim, now: Instant, at: Instant)

  ghost predicate CanWork(d: Db, s: WorkStep) {
    match s
    case ClaimJob(id, now, lease, token, skip) => Enabled(false, d.jobs, Claim(id, now, lease, token, skip))
    case RetryJob(_, _, _) => true
    case CommitEnrichment(claim, now, _, _, _, ids, stamps) =>
      && Owns(d.jobs.rows, claim, now)
      && |ids| == 2 && |stamps| == 2 && ids[0] != ids[1] && ids[0] !in d.events && ids[1] !in d.events
    case ClaimEvent(id, now, lease, token, skip) => Enabled(true, d.outbox, Claim(id, now, lease, token, skip))
    case RetryEvent(_, _, _) => true
    case CompleteEvent(claim, now, _) => Owns(d.outbox.rows, claim, now)
  }

  function EnrichTx(d: Db, claim: WorkClaim, c: Classification, score: real, at: Instant, ids: seq<Id>,
                    stamps: seq<Instant>, threshold: real): Db
    requires |ids| == 2 && |stamps| == 2
  {
    var d1 := Categorize(d, claim.id, c, score, at);
    if claim.id in d1.txs
    then InsertEvents(d1, BuildEvents(d1.accounts, claim.id, d1.txs[claim.id], threshold), ids, stamps)
    else d1
  }

  ghost function ApplyWork(d: Db, s: WorkStep, threshold: real): Db
    requires CanWork(d, s)
  {
    match s
    case ClaimJob(id, now, lease, token, skip) =>
      d.(jobs := Apply(false, d.jobs, Claim(id, now, lease, token, skip)))
    case RetryJob(claim, at, error) => d.(jobs := Apply(false, d.jobs, Retry(claim, at, error)))
    case CommitEnrichment(claim, _, c, score, at, ids, stamps) =>
      var d1 := EnrichTx(d, claim, c, score, at, ids, stamps, threshold);
      d1.(jobs := Apply(false, d1.jobs, Complete(claim, at)))
    case ClaimEvent(id, now, lease, token, skip) =>
      d.(outbox := Apply(true, d.outbox, Claim(id, now, lease, token, skip)))
    case RetryEvent(claim, at, error) => d.(outbox := Apply(true, d.outbox, Retry(claim, at, error)))
    case CompleteEvent(claim, _, at) => d.(outbox := Apply(true, d.outbox, Complete(claim, at)))
  }

  // ---------------------------------------------------------------- the invariant

  /** What an outbox row says about the transaction it belongs to. */
  ghost predicate Describes(d: Db, e: Event, threshold: real) {
    e.tx in d.txs && d.txs[e.tx].account in d.accounts
    && var tx := d.txs[e.tx];
       && e.account == tx.account && e.user == d.accounts[tx.account].user
       && e.amount == tx.amount && e.currency == tx.currency
       && match e
          case TransactionCategorized(_, _, _, _, _, _, _, score, _) => score == tx.score
          case TransactionAnomalyFlagged(_, _, _, _, _, flagged) => flagged == ScoreOrZero(tx) >= threshold
  }

  ghost predicate RowFits(d: Db, o: Id, threshold: real)
    requires o in d.outbox.rows
  {
    && o in d.events
    && d.outbox.rows[o].partition == d.events[o].account
    && d.events[o].tx in d.jobs.rows && d.jobs.rows[d.events[o].tx].completedAt.Some?
    && Describes(d, d.events[o], threshold)
  }

  ghost predicate RowsDescribe(d: Db, threshold: real) {
    d.outbox.issued.Keys == d.events.Keys && forall o | o in d.outbox.rows :: RowFits(d, o, threshold)
  }

  ghost predicate OneRowPerType(rows: Table, events: map<Id, Event>) {
    forall o, p | o in rows && p in rows && o in events && p in events && events[o].tx == events[p].tx
      && events[o].TransactionAnomalyFlagged? == events[p].TransactionAnomalyFlagged? :: o == p
  }

  /** A finished job's transaction is categorized, announced, and flagged exactly when its
      score reaches the threshold. */
  ghost predicate Finished(d: Db, x: Id, threshold: real) {
    x in d.txs && d.txs[x].status.Categorized?
    && HasEvent(d, x, false)
    && (HasEvent(d, x, true) <==> ScoreOrZero(d.txs[x]) >= threshold)
  }

  ghost predicate JobsDone(d: Db, threshold: real) {
    forall x | x in d.jobs.rows && d.jobs.rows[x].completedAt.Some? :: Finished(d, x, threshold)
  }

  ghost predicate WorkerAudits(d: Db) {
    && (forall x :: d.audits[Audit(CategorizedByWorker, x)] <= 1)
    && (forall x | x !in d.jobs.issued || (x in d.jobs.rows && d.jobs.rows[x].completedAt.None?) ::
          d.audits[Audit(CategorizedByWorker, x)] == 0)
  }

  ghost predicate EnrichInv(d: Db, threshold: real) {
    && Inv(d.jobs) && Inv(d.outbox)
    && RowsDescribe(d, threshold) && OneRowPerType(d.outbox.rows, d.events) && JobsDone(d, threshold) && WorkerAudits(d)
  }

  /** While a job is unfinished, no worker step has left a trace on its transaction. */
  lemma UnfinishedLeavesNoTrace(d: Db, threshold: real, x: Id)
    requires EnrichInv(d, threshold) && x in d.jobs.rows && d.jobs.rows[x].completedAt.None?
    ensures !HasEvent(d, x, false) && !HasEvent(d, x, true) && d.audits[Audit(CategorizedByWorker, x)] == 0
  {}

  // ---------------------------------------------------------------- the enrichment commit

  ghost predicate ReadyToEnrich(d: Db, s: WorkStep, threshold: real) {
    s.CommitEnrichment? && LedgerInv(d) && EnrichInv(d, threshold) && CanWork(d, s)
  }

  function EventsOf(d: Db, s: WorkStep, threshold: real): seq<Event>
    requires s.CommitEnrichment? && s.claim.id in d.txs
  {
    BuildEvents(d.accounts, s.claim.id, Enriched(d.txs[s.claim.id], s.result, s.score, s.at), threshold)
  }

  function RowsOf(es: seq<Event>, s: WorkStep): Table
    requires s.CommitEnrichment? && 1 <= |es| <= 2 && |s.ids| == 2 && |s.stamps| == 2
  {
    var first := map[s.ids[0] := NewOutboxRow(es[0], s.stamps[0])];
    if |es| == 1 then first else first[s.ids[1] := NewOutboxRow(es[1], s.stamps[1])]
  }

  function PayloadsOf(es: seq<Event>, s: WorkStep): map<Id, Event>
    requires s.CommitEnrichment? && 1 <= |es| <= 2 && |s.ids| == 2
  {
    var first := map[s.ids[0] := es[0]];
    if |es| == 1 then first else first[s.ids[1] := es[1]]
  }

  lemma AddedBoth(d: Db, es: seq<Event>, s: WorkStep)
    requires s.CommitEnrichment? && 1 <= |es| <= 2 && |s.ids| == 2 && |s.stamps| == 2
    requires forall e | e in es :: !HasEvent(d, e.tx, e.TransactionAnomalyFlagged?)
    ensures AddedRows(d, es, s.ids, s.stamps) == RowsOf(es, s)
    ensures AddedEvents(d, es, s.ids) == PayloadsOf(es, s)
  {
    var first := es[..1];
    assert first[..0] == [] && es[0] in es;
    assert AddedRows(d, first, s.ids, s.stamps) == map[s.ids[0] := NewOutboxRow(es[0], s.stamps[0])];
    assert AddedEvents(d, first, s.ids) == map[s.ids[0] := es[0]];
    if |es| == 1 { assert es == first; } else { assert es[..1] == first && es[1] in es; }
  }

  /** In a reachable database the job's transaction exists and is announced by the categorized
      event, and by the anomaly event exactly when the score reaches the threshold. */
  lemma EnrichEvents(d: Db, s: WorkStep, threshold: real)
    requires ReadyToEnrich(d, s, threshold)
    ensures s.claim.id in d.txs
    ensures var es := EventsOf(d, s, threshold);
      && 1 <= |es| <= 2 && es[0].TransactionCategorized? && (|es| == 2 ==> es[1].TransactionAnomalyFlagged?)
      && (|es| == 2 <==> ScoreOrZero(Enriched(d.txs[s.claim.id], s.result, s.score, s.at)) >= threshold)
      && (forall e | e in es :: e.tx == s.claim.id)
  {}

  /** Neither event exists before, so both are inserted in the commit that categorizes. */
  lemma EnrichInserts(d: Db, s: WorkStep, threshold: real)
    requires ReadyToEnrich(d, s, threshold) && s.claim.id in d.txs
    requires 1 <= |EventsOf(d, s, threshold)| <= 2
    ensures var es := EventsOf(d, s, threshold);
      && Enabled(true, d.outbox, Insert(RowsOf(es, s)))
      && EnrichTx(d, s.claim, s.result, s.score, s.at, s.ids, s.stamps, threshold)
         == Categorize(d, s.claim.id, s.result, s.score, s.at).(
              events := d.events + PayloadsOf(es, s), outbox := Apply(true, d.outbox, Insert(RowsOf(es, s))))
  {
    var x, es := s.claim.id, EventsOf(d, s, threshold);
    EnrichEvents(d, s, threshold);
    UnfinishedLeavesNoTrace(d, threshold, x);
    var d1 := Categorize(d, x, s.result, s.score, s.at);
    AddedBoth(d1, es, s);
    NewRowsAreNew(d, es, s);
    assert d1.txs[x] == Enriched(d.txs[x], s.result, s.score, s.at);
  }

  lemma NewRowsAreNew(d: Db, es: seq<Event>, s: WorkStep)
    requires s.CommitEnrichment? && 1 <= |es| <= 2 && CanWork(d, s) && d.outbox.issued.Keys == d.events.Keys
    ensures Enabled(true, d.outbox, Insert(RowsOf(es, s)))
  {}

  /** The enrichment commit, column by column: `tx` is the new transaction row, `es` its events. */
  ghost predicate Result(d: Db, d': Db, s: WorkStep, tx: Tx, es: seq<Event>, threshold: real)
    requires s.CommitEnrichment? && |s.ids| == 2 && |s.stamps| == 2 && s.claim.id in d.txs && s.claim.id in d.jobs.rows
  {
    && tx == Enriched(d.txs[s.claim.id], s.result, s.score, s.at)
    && es == BuildEvents(d.accounts, s.claim.id, tx, threshold)
    && 1 <= |es| <= 2 && es[0].TransactionCategorized? && (|es| == 2 ==> es[1].TransactionAnomalyFlagged?)
    && (|es| == 2 <==> ScoreOrZero(tx) >= threshold)
    && d'.accounts == d.accounts && d'.sessions == d.sessions && d'.used == d.used
    && d'.txs == d.txs[s.claim.id := tx]
    && d'.audits == (if d.txs[s.claim.id].status.Categorized? then d.audits
                     else d.audits + multiset{Audit(CategorizedByWorker, s.claim.id)})
    && d'.events == d.events + PayloadsOf(es, s)
    && Enabled(true, d.outbox, Insert(RowsOf(es, s)))
    && d'.outbox == Apply(true, d.outbox, Insert(RowsOf(es, s)))
    && d'.jobs == Apply(false, d.jobs, Complete(s.claim, s.at))
    && d'.jobs.rows == CompleteRow(d.jobs.rows, s.claim, s.at)
  }

  lemma EnrichResult(d: Db, s: WorkStep, threshold: real) returns (tx: Tx, es: seq<Event>)
    requires ReadyToEnrich(d, s, threshold)
    ensures s.claim.id in d.txs && s.claim.id in d.jobs.rows
    ensures Result(d, ApplyWork(d, s, threshold), s, tx, es, threshold)
  {
    EnrichEvents(d, s, threshold);
    EnrichInserts(d, s, threshold);
    tx := Enriched(d.txs[s.claim.id], s.result, s.score, s.at);
    es := EventsOf(d, s, threshold);
    ReadResult(d, s, tx, es, threshold);
  }

  lemma ReadResult(d: Db, s: WorkStep, tx: Tx, es: seq<Event>, threshold: real)
    requires CanWork(d, s) && s.CommitEnrichment? && s.claim.id in d.txs
    requires tx == Enriched(d.txs[s.claim.id], s.result, s.score, s.at)
             && es == BuildEvents(d.accounts, s.claim.id, tx, threshold)
    requires 1 <= |es| <= 2 && es[0].TransactionCategorized? && (|es| == 2 ==> es[1].TransactionAnomalyFlagged?)
    requires |es| == 2 <==> ScoreOrZero(tx) >= threshold
    requires Enabled(true, d.outbox, Insert(RowsOf(es, s)))
    requires EnrichTx(d, s.claim, s.result, s.score, s.at, s.ids, s.stamps, threshold)
      == Categorize(d, s.claim.id, s.result, s.score, s.at).(
           events := d.events + PayloadsOf(es, s), outbox := Apply(true, d.outbox, Insert(RowsOf(es, s))))
    ensures Result(d, ApplyWork(d, s, threshold), s, tx, es, threshold)
  {}

  // ---------------------------------------------------------------- what the commit stores and announces

  /** The row holds the worker's result; its ledger columns are what they were. */
  predicate HoldsResult(tx: Tx, tx': Tx, c: Classification, score: real, at: Instant) {
    && tx'.category == Some(c.slug) && (c.fromLlm ==> tx'.source == Some(Llm))
    && (!c.fromLlm ==> tx'.source == Some(Rules))
    && tx'.score == Some(score) && tx'.status.Categorized? && tx'.categorizedAt == Some(at)
    && tx'.account == tx.account && tx'.extId == tx.extId && tx'.amount == tx.amount
    && tx'.currency == tx.currency && tx'.description == tx.description && tx'.occurredAt == tx.occurredAt
  }

  /** The event says of transaction `x` what its row says. */
  predicate Tells(e: Event, x: Id, tx: Tx, user: Id, score: real) {
    && e.tx == x && e.account == tx.account && e.user == user && e.amount == tx.amount && e.currency == tx.currency
    && (e.TransactionCategorized? ==>
          e.category == tx.category && e.source == tx.source && e.score == tx.score && e.occurredAt == tx.occurredAt)
    && (e.TransactionAnomalyFlagged? ==> e.flagged == score)
  }

  predicate IsAdded(d: Db, d': Db, o: Id) { o in d'.outbox.rows && o !in d.outbox.rows && o in d'.events }

  /** The outbox keeps its rows and gains due ones for transaction `x`, on its account's
      partition: one that tells its category, and one that flags its score exactly when that
      reaches the threshold. */
  ghost predicate Announces(d: Db, d': Db, x: Id, tx: Tx, user: Id, score: real, threshold: real) {
    && (forall o | o in d.outbox.rows :: o in d'.outbox.rows && d'.outbox.rows[o] == d.outbox.rows[o])
    && (forall o | o in d'.outbox.rows && o !in d.outbox.rows ::
          && o in d'.events && Tells(d'.events[o], x, tx, user, score)
          && Due(d'.outbox.rows[o]) && d'.outbox.rows[o].partition == tx.account)
    && (exists o :: IsAdded(d, d', o) && d'.events[o].TransactionCategorized?)
    && ((exists o :: IsAdded(d, d', o) && d'.events[o].TransactionAnomalyFlagged?) <==> score >= threshold)
  }

  lemma AddedAnnounce(d: Db, d': Db, r: Table, p: map<Id, Event>, x: Id, tx: Tx, user: Id, score: real,
                      threshold: real)
    requires d'.outbox.rows == d.outbox.rows + r && d'.events == d.events + p && r.Keys == p.Keys
    requires r.Keys !! d.outbox.rows.Keys
    requires forall o | o in p :: Tells(p[o], x, tx, user, score) && Due(r[o]) && r[o].partition == p[o].account
    requires HasRow(r, p, x, false) && (HasRow(r, p, x, true) <==> score >= threshold)
    ensures Announces(d, d', x, tx, user, score, threshold)
  {
    forall o | o in r ensures IsAdded(d, d', o) && d'.events[o] == p[o] && d'.outbox.rows[o] == r[o] {}
    assert forall o :: IsAdded(d, d', o) ==> o in r && d'.events[o] == p[o];
  }

  lemma BuiltEventsTell(accounts: map<Id, Account>, x: Id, tx: Tx, threshold: real, e: Event, score: real)
    requires tx.account in accounts && e in BuildEvents(accounts, x, tx, threshold)
    requires score == if tx.score.Some? then tx.score.value else 0.0
    ensures Tells(e, x, tx, accounts[tx.account].user, score)
  {}

  lemma EnrichedHolds(tx: Tx, c: Classification, score: real, at: Instant)
    ensures if tx.status.Categorized? then Enriched(tx, c, score, at) == tx
            else HoldsResult(tx, Enriched(tx, c, score, at), c, score, at)
  {}

  /** What a worker's commit leaves: the transaction holds its result, unless it was categorized
      before; the new outbox rows announce the transaction as it then stands; its job is done. */
  ghost predicate Recorded(d: Db, d': Db, x: Id, c: Classification, score: real, at: Instant, threshold: real) {
    && x in d.txs && x in d'.txs && d.txs[x].account in d.accounts && d'.txs == d.txs[x := d'.txs[x]]
    && (if d.txs[x].status.Categorized? then d'.txs[x] == d.txs[x]
        else HoldsResult(d.txs[x], d'.txs[x], c, score, at))
    && Announces(d, d', x, d'.txs[x], d.accounts[d.txs[x].account].user,
                 if d'.txs[x].score.Some? then d'.txs[x].score.value else 0.0, threshold)
    && x in d'.jobs.rows && d'.jobs.rows[x].completedAt == Some(at)
    && d'.audits == (if d.txs[x].status.Categorized? then d.audits
                     else d.audits + multiset{Audit(CategorizedByWorker, x)})
  }

  lemma ResultAnnounces(d: Db, d': Db, s: WorkStep, tx: Tx, es: seq<Event>, score: real, threshold: real)
    requires CanWork(d, s) && s.CommitEnrichment? && s.claim.id in d.txs && s.claim.id in d.jobs.rows
    requires Result(d, d', s, tx, es, threshold) && tx.account in d.accounts
    requires Joins(d.outbox.rows, d.events, RowsOf(es, s), PayloadsOf(es, s), s.claim.id)
    requires forall e | e in es :: e.tx == s.claim.id
    requires score == if tx.score.Some? then tx.score.value else 0.0
    ensures Announces(d, d', s.claim.id, tx, d.accounts[tx.account].user, score, threshold)
  {
    var user := d.accounts[tx.account].user;
    forall e | e in es ensures Tells(e, s.claim.id, tx, user, score) {
      BuiltEventsTell(d.accounts, s.claim.id, tx, threshold, e, score);
    }
    PayloadFacts(d, es, s);
    AddedAnnounce(d, d', RowsOf(es, s), PayloadsOf(es, s), s.claim.id, tx, user, score, threshold);
  }

  lemma CommitRecords(d: Db, s: WorkStep, threshold: real)
    requires ReadyToEnrich(d, s, threshold)
    ensures Recorded(d, ApplyWork(d, s, threshold), s.claim.id, s.result, s.score, s.at, threshold)
  {
    var d' := ApplyWork(d, s, threshold);
    var tx, es := EnrichResult(d, s, threshold);
    EnrichJoins(d, s, tx, es, threshold);
    EnrichedHolds(d.txs[s.claim.id], s.result, s.score, s.at);
    ResultAnnounces(d, d', s, tx, es, if tx.score.Some? then tx.score.value else 0.0, threshold);
    ResultIs(d, d', s, tx, es, threshold);
  }

  lemma ResultIs(d: Db, d': Db, s: WorkStep, tx: Tx, es: seq<Event>, threshold: real)
    requires CanWork(d, s) && s.CommitEnrichment? && s.claim.id in d.txs && s.claim.id in d.jobs.rows
    requires Result(d, d', s, tx, es, threshold)
    ensures s.claim.id in d'.txs && d'.txs[s.claim.id] == tx && d'.txs == d.txs[s.claim.id := tx]
    ensures s.claim.id in d'.jobs.rows && d'.jobs.rows[s.claim.id].completedAt == Some(s.at)
  {}

  // Joining the new rows `r`, with payloads `p`, all of transaction `x`, to rows that are not `x`'s.

  predicate Joins(rows: Table, events: map<Id, Event>, r: Table, p: map<Id, Event>, x: Id) {
    && rows.Keys <= events.Keys && r.Keys == p.Keys && p.Keys !! events.Keys
    && (forall o | o in rows :: events[o].tx != x)
    && (forall o | o in p :: p[o].tx == x)
  }

  lemma JoinedOneRow(rows: Table, events: map<Id, Event>, r: Table, p: map<Id, Event>, x: Id)
    requires Joins(rows, events, r, p, x) && OneRowPerType(rows, events) && OneRowPerType(r, p)
    ensures OneRowPerType(rows + r, events + p)
  {}

  lemma JoinedHasRow(rows: Table, events: map<Id, Event>, r: Table, p: map<Id, Event>, x: Id, y: Id, anomaly: bool)
    requires Joins(rows, events, r, p, x)
    ensures HasRow(rows + r, events + p, y, anomaly) == if y == x then HasRow(r, p, x, anomaly)
            else HasRow(rows, events, y, anomaly)
  {
    if y == x {
      if o :| o in r && p[o].TransactionAnomalyFlagged? == anomaly { assert o in rows + r && (events + p)[o] == p[o]; }
    } else {
      if o :| o in rows && events[o].tx == y && events[o].TransactionAnomalyFlagged? == anomaly {
        assert o in rows + r && (events + p)[o] == events[o];
      }
    }
  }

  lemma PayloadFacts(d: Db, es: seq<Event>, s: WorkStep)
    requires s.CommitEnrichment? && CanWork(d, s) && 1 <= |es| <= 2 && es[0].TransactionCategorized?
    requires |es| == 2 ==> es[1].TransactionAnomalyFlagged?
    requires forall e | e in es :: e.tx == s.claim.id
    ensures var r, p := RowsOf(es, s), PayloadsOf(es, s);
      && r.Keys == p.Keys && p.Keys !! d.events.Keys && OneRowPerType(r, p)
      && (forall o | o in p :: p[o] in es && p[o].tx == s.claim.id && r[o].partition == p[o].account && Due(r[o]))
      && HasRow(r, p, s.claim.id, false) && (HasRow(r, p, s.claim.id, true) <==> |es| == 2)
  {
    var r, p := RowsOf(es, s), PayloadsOf(es, s);
    assert es[0] in es && p[s.ids[0]] == es[0] && s.ids[0] in r;
    if |es| == 2 { assert es[1] in es && p[s.ids[1]] == es[1] && s.ids[1] in r; }
  }

  lemma EnrichJoins(d: Db, s: WorkStep, tx: Tx, es: seq<Event>, threshold: real)
    requires ReadyToEnrich(d, s, threshold) && s.claim.id in d.txs
    requires tx == Enriched(d.txs[s.claim.id], s.result, s.score, s.at)
             && es == BuildEvents(d.accounts, s.claim.id, tx, threshold)
    ensures 1 <= |es| <= 2 && es[0].TransactionCategorized? && (|es| == 2 ==> es[1].TransactionAnomalyFlagged?)
    ensures (forall e | e in es :: e.tx == s.claim.id) && tx.account in d.accounts
    ensures Joins(d.outbox.rows, d.events, RowsOf(es, s), PayloadsOf(es, s), s.claim.id)
  {
    EnrichEvents(d, s, threshold);
    PayloadFacts(d, es, s);
    UnfinishedLeavesNoTrace(d, threshold, s.claim.id);
    forall o | o in d.outbox.rows ensures o in d.events && d.events[o].tx != s.claim.id {
      assert RowFits(d, o, threshold);
    }
  }

  /** A row keeps fitting when its own transaction, account and finished job stay as they are. */
  lemma StillFits(d: Db, d': Db, o: Id, threshold: real)
    requires o in d.outbox.rows && RowFits(d, o, threshold)
    requires o in d'.outbox.rows && d'.outbox.rows[o].partition == d.outbox.rows[o].partition
    requires o in d'.events && d'.events[o] == d.events[o]
    requires var x := d.events[o].tx;
      && x in d'.txs && d'.txs[x].account == d.txs[x].account && d'.txs[x].amount == d.txs[x].amount
      && d'.txs[x].currency == d.txs[x].currency && d'.txs[x].score == d.txs[x].score
      && d.txs[x].account in d'.accounts && d'.accounts[d.txs[x].account].user == d.accounts[d.txs[x].account].user
      && x in d'.jobs.rows && d'.jobs.rows[x].completedAt.Some?
    ensures RowFits(d', o, threshold)
  {}

  lemma NewRowFits(d: Db, d': Db, s: WorkStep, tx: Tx, es: seq<Event>, threshold: real, o: Id)
    requires CanWork(d, s) && s.CommitEnrichment?
    requires s.claim.id in d.txs && Result(d, d', s, tx, es, threshold) && tx.account in d.accounts
    requires o in d'.outbox.rows && o !in d.outbox.rows && o !in d.events
    ensures RowFits(d', o, threshold)
  {
    var e := PayloadsOf(es, s)[o];
    assert o in RowsOf(es, s) && d'.events[o] == e && e in es;
    assert d'.outbox.rows[o] == RowsOf(es, s)[o] && RowsOf(es, s)[o].partition == e.account;
    BuiltEventDescribes(d', s.claim.id, tx, es, threshold, e);
    assert d'.jobs.rows[s.claim.id].completedAt == Some(s.at);
  }

  lemma BuiltEventDescribes(d: Db, x: Id, tx: Tx, es: seq<Event>, threshold: real, e: Event)
    requires x in d.txs && d.txs[x] == tx && tx.account in d.accounts
    requires es == BuildEvents(d.accounts, x, tx, threshold) && e in es
    ensures Describes(d, e, threshold) && e.tx == x
  {}

  lemma EnrichedRowsDescribe(d: Db, d': Db, s: WorkStep, tx: Tx, es: seq<Event>, threshold: real)
    requires RowsDescribe(d, threshold) && CanWork(d, s) && s.CommitEnrichment?
    requires s.claim.id in d.txs && Result(d, d', s, tx, es, threshold) && tx.account in d.accounts
    requires forall e | e in es :: e.tx == s.claim.id
    requires Joins(d.outbox.rows, d.events, RowsOf(es, s), PayloadsOf(es, s), s.claim.id)
    ensures RowsDescribe(d', threshold)
  {
    PayloadFacts(d, es, s);
    forall o | o in d'.outbox.rows ensures RowFits(d', o, threshold) {
      if o in d.outbox.rows {
        assert RowFits(d, o, threshold);
        StillFits(d, d', o, threshold);
      } else {
        NewRowFits(d, d', s, tx, es, threshold, o);
      }
    }
  }

  lemma EnrichedJobsDone(d: Db, d': Db, s: WorkStep, tx: Tx, es: seq<Event>, threshold: real)
    requires JobsDone(d, threshold) && CanWork(d, s) && s.CommitEnrichment?
    requires s.claim.id in d.txs && Result(d, d', s, tx, es, threshold)
    requires forall e | e in es :: e.tx == s.claim.id
    requires Joins(d.outbox.rows, d.events, RowsOf(es, s), PayloadsOf(es, s), s.claim.id)
    ensures JobsDone(d', threshold)
  {
    PayloadFacts(d, es, s);
    forall y | y in d'.jobs.rows && d'.jobs.rows[y].completedAt.Some? ensures Finished(d', y, threshold) {
      JoinedHasRow(d.outbox.rows, d.events, RowsOf(es, s), PayloadsOf(es, s), s.claim.id, y, false);
      JoinedHasRow(d.outbox.rows, d.events, RowsOf(es, s), PayloadsOf(es, s), s.claim.id, y, true);
      if y != s.claim.id { assert Finished(d, y, threshold); }
    }
  }

  lemma EnrichKeeps(d: Db, s: WorkStep, threshold: real)
    requires ReadyToEnrich(d, s, threshold)
    ensures EnrichInv(ApplyWork(d, s, threshold), threshold)
  {
    var d' := ApplyWork(d, s, threshold);
    var tx, es := EnrichResult(d, s, threshold);
    EnrichJoins(d, s, tx, es, threshold);
    PayloadFacts(d, es, s);
    ApplyKeepsInv(false, d.jobs, Complete(s.claim, s.at));
    ApplyKeepsInv(true, d.outbox, Insert(RowsOf(es, s)));
    EnrichedRowsDescribe(d, d', s, tx, es, threshold);
    JoinedOneRow(d.outbox.rows, d.events, RowsOf(es, s), PayloadsOf(es, s), s.claim.id);
    EnrichedJobsDone(d, d', s, tx, es, threshold);
    EnrichedAudits(d, d', s, tx, es, threshold);
  }

  lemma EnrichedAudits(d: Db, d': Db, s: WorkStep, tx: Tx, es: seq<Event>, threshold: real)
    requires Inv(d.jobs) && WorkerAudits(d) && CanWork(d, s) && s.CommitEnrichment?
    requires s.claim.id in d.txs && Result(d, d', s, tx, es, threshold)
    ensures WorkerAudits(d')
  {}

  // ---------------------------------------------------------------- every other step

  /** Enough for the invariant to carry over: nothing it speaks of is weakened. */
  ghost predicate Frame(d: Db, d': Db) {
    && (forall x | x in d'.txs && x in d.txs ::
          && d'.txs[x].account == d.txs[x].account && d'.txs[x].amount == d.txs[x].amount
          && d'.txs[x].currency == d.txs[x].currency && d'.txs[x].score == d.txs[x].score
          && (d.txs[x].status.Categorized? ==> d'.txs[x].status.Categorized?))
    && (forall a | a in d.accounts && a in d'.accounts :: d'.accounts[a].user == d.accounts[a].user)
    && (forall x | x in d'.txs :: d'.txs[x].account in d'.accounts)
    && d'.events == d.events && d'.outbox.issued.Keys == d.outbox.issued.Keys
    && (forall o | o in d'.outbox.rows ::
          o in d.outbox.rows && d'.outbox.rows[o].partition == d.outbox.rows[o].partition)
    && (forall o | o in d.outbox.rows && o in d.events && d.events[o].tx in d'.jobs.rows :: o in d'.outbox.rows)
    && (forall o | o in d'.outbox.rows && o in d.events :: d.events[o].tx in d'.jobs.rows && d.events[o].tx in d'.txs)
    && (forall x | x in d'.jobs.rows && x in d.jobs.rows ::
          d'.jobs.rows[x].completedAt.Some? == d.jobs.rows[x].completedAt.Some?)
    && (forall x | x in d'.jobs.rows && d'.jobs.rows[x].completedAt.Some? :: x in d.jobs.rows && x in d'.txs)
  }

  lemma FrameRows(d: Db, d': Db, threshold: real)
    requires RowsDescribe(d, threshold) && Frame(d, d')
    ensures RowsDescribe(d', threshold)
  {
    forall o | o in d'.outbox.rows ensures RowFits(d', o, threshold) {
      assert RowFits(d, o, threshold);
      StillFits(d, d', o, threshold);
    }
  }

  lemma FrameHasRow(d: Db, d': Db, y: Id, anomaly: bool)
    requires Frame(d, d') && y in d'.jobs.rows
    ensures HasEvent(d', y, anomaly) == HasEvent(d, y, anomaly)
  {}

  lemma FrameJobs(d: Db, d': Db, threshold: real)
    requires JobsDone(d, threshold) && Frame(d, d')
    ensures JobsDone(d', threshold)
  {
    forall y | y in d'.jobs.rows && d'.jobs.rows[y].completedAt.Some? ensures Finished(d', y, threshold) {
      assert Finished(d, y, threshold);
      FrameHasRow(d, d', y, false);
      FrameHasRow(d, d', y, true);
    }
  }

  lemma FrameKeeps(d: Db, d': Db, threshold: real)
    requires EnrichInv(d, threshold) && Frame(d, d') && Inv(d'.jobs) && Inv(d'.outbox) && WorkerAudits(d')
    ensures EnrichInv(d', threshold)
  {
    FrameRows(d, d', threshold);
    FrameJobs(d, d', threshold);
  }

  /** Each outbox row has a payload, a job and a transaction; each transaction an account. */
  ghost predicate Linked(d: Db) {
    && (forall o | o in d.outbox.rows :: o in d.events && d.events[o].tx in d.jobs.rows && d.events[o].tx in d.txs)
    && (forall x | x in d.txs :: d.txs[x].account in d.accounts)
    && d.jobs.rows.Keys <= d.txs.Keys && d.jobs.rows.Keys <= d.jobs.issued.Keys
  }

  lemma InvLinked(d: Db, threshold: real)
    requires LedgerInv(d) && EnrichInv(d, threshold)
    ensures Linked(d)
  {
    forall o | o in d.outbox.rows ensures o in d.events && d.events[o].tx in d.jobs.rows && d.events[o].tx in d.txs {
      assert RowFits(d, o, threshold);
    }
  }

  /** Same rows, in the same partitions, with the same history keys. */
  ghost predicate SameShape(q: Queue, q': Queue) {
    && q'.rows.Keys == q.rows.Keys && q'.issued.Keys == q.issued.Keys
    && (forall o | o in q.rows :: q'.rows[o].partition == q.rows[o].partition)
  }

  ghost predicate SameCompletion(q: Queue, q': Queue)
    requires q'.rows.Keys == q.rows.Keys
  {
    forall o | o in q.rows :: q'.rows[o].completedAt == q.rows[o].completedAt
  }

  /** A claim, a retry or a completion never creates or removes rows, moves them, or undoes one. */
  lemma QueueStepFrame(ordered: bool, q: Queue, s: Step)
    requires Inv(q) && Enabled(ordered, q, s) && (s.Claim? || s.Retry? || s.Complete?)
    ensures Inv(Apply(ordered, q, s)) && SameShape(q, Apply(ordered, q, s))
    ensures !s.Complete? ==> SameCompletion(q, Apply(ordered, q, s))
  {
    ApplyKeepsInv(ordered, q, s);
  }

  lemma JobsFrame(d: Db, jobs: Queue)
    requires Linked(d) && SameShape(d.jobs, jobs) && SameCompletion(d.jobs, jobs)
    ensures Frame(d, d.(jobs := jobs))
  {}

  lemma OutboxFrame(d: Db, outbox: Queue)
    requires Linked(d) && SameShape(d.outbox, outbox)
    ensures Frame(d, d.(outbox := outbox))
  {}

  lemma JobsStepKeeps(d: Db, s: Step, threshold: real)
    requires LedgerInv(d) && EnrichInv(d, threshold) && Enabled(false, d.jobs, s) && (s.Claim? || s.Retry?)
    ensures EnrichInv(d.(jobs := Apply(false, d.jobs, s)), threshold) && LedgerInv(d.(jobs := Apply(false, d.jobs, s)))
  {
    var jobs := Apply(false, d.jobs, s);
    QueueStepFrame(false, d.jobs, s);
    InvLinked(d, threshold);
    JobsFrame(d, jobs);
    AuditsFrame(d, jobs);
    FrameKeeps(d, d.(jobs := jobs), threshold);
    SameLedgerKeeps(d, d.(jobs := jobs));
  }

  lemma AuditsFrame(d: Db, jobs: Queue)
    requires WorkerAudits(d) && SameShape(d.jobs, jobs) && SameCompletion(d.jobs, jobs)
    ensures WorkerAudits(d.(jobs := jobs))
  {}

  lemma OutboxStepKeeps(d: Db, s: Step, threshold: real)
    requires LedgerInv(d) && EnrichInv(d, threshold) && Enabled(true, d.outbox, s)
             && (s.Claim? || s.Retry? || s.Complete?)
    ensures EnrichInv(d.(outbox := Apply(true, d.outbox, s)), threshold)
            && LedgerInv(d.(outbox := Apply(true, d.outbox, s)))
  {
    var outbox := Apply(true, d.outbox, s);
    QueueStepFrame(true, d.outbox, s);
    InvLinked(d, threshold);
    OutboxFrame(d, outbox);
    FrameKeeps(d, d.(outbox := outbox), threshold);
    SameLedgerKeeps(d, d.(outbox := outbox));
  }

  lemma LedgerKeptByEnrichment(d: Db, d': Db, s: WorkStep, tx: Tx, es: seq<Event>, threshold: real)
    requires LedgerInv(d) && s.CommitEnrichment? && CanWork(d, s)
    requires s.claim.id in d.txs && Result(d, d', s, tx, es, threshold)
    ensures LedgerInv(d')
  {
    SameLedgerKeeps(d, d');
  }

  /** Every worker step keeps the ledger and the enrichment invariants. */
  lemma WorkStepKeeps(d: Db, s: WorkStep, threshold: real)
    requires LedgerInv(d) && EnrichInv(d, threshold) && CanWork(d, s)
    ensures LedgerInv(ApplyWork(d, s, threshold)) && EnrichInv(ApplyWork(d, s, threshold), threshold)
  {
    match s
    case ClaimJob(id, now, lease, token, skip) => JobsStepKeeps(d, Claim(id, now, lease, token, skip), threshold);
    case RetryJob(claim, at, error) => JobsStepKeeps(d, Retry(claim, at, error), threshold);
    case CommitEnrichment(_, _, _, _, _, _, _) =>
      EnrichKeeps(d, s, threshold);
      var tx, es := EnrichResult(d, s, threshold);
      LedgerKeptByEnrichment(d, ApplyWork(d, s, threshold), s, tx, es, threshold);
    case ClaimEvent(id, now, lease, token, skip) => OutboxStepKeeps(d, Claim(id, now, lease, token, skip), threshold);
    case RetryEvent(claim, at, error) => OutboxStepKeeps(d, Retry(claim, at, error), threshold);
    case CompleteEvent(claim, _, at) => OutboxStepKeeps(d, Complete(claim, at), threshold);
  }

  lemma FewerRowsKeepInv(q: Queue, rows: Table)
    requires Inv(q) && rows.Keys <= q.rows.Keys && forall o | o in rows :: rows[o] == q.rows[o]
    ensures Inv(q.(rows := rows))
  {}

  lemma CommitFrame(d: Db, s: LedgerStep)
    requires s.Commit? && Linked(d) && Allowed(d, s)
    requires d.txs.Keys !! d.sessions[s.sid].adds.Keys && d.jobs.issued.Keys !! d.sessions[s.sid].adds.Keys
    requires forall x | x in ApplyLedger(d, s).txs :: ApplyLedger(d, s).txs[x].account in ApplyLedger(d, s).accounts
    ensures Frame(d, ApplyLedger(d, s))
  {}

  lemma CommitAudits(d: Db, s: LedgerStep)
    requires s.Commit? && WorkerAudits(d) && Allowed(d, s) && d.jobs.issued.Keys !! d.sessions[s.sid].adds.Keys
    ensures WorkerAudits(ApplyLedger(d, s))
  {}

  lemma CommitJobsInv(d: Db, s: LedgerStep)
    requires s.Commit? && Inv(d.jobs) && Allowed(d, s) && d.jobs.issued.Keys !! d.sessions[s.sid].adds.Keys
    ensures Inv(ApplyLedger(d, s).jobs)
  {
    var added := NewJobs(d.sessions[s.sid].adds, s.now);
    assert Enabled(false, d.jobs, Insert(added));
    ApplyKeepsInv(false, d.jobs, Insert(added));
  }

  lemma CommitKeepsEnrichment(d: Db, s: LedgerStep, threshold: real)
    requires s.Commit? && LedgerInv(d) && EnrichInv(d, threshold) && Allowed(d, s)
    ensures EnrichInv(ApplyLedger(d, s), threshold)
  {
    CommitFacts(d, s);
    CommitJobsInv(d, s);
    InvLinked(d, threshold);
    CommitFrame(d, s);
    CommitAudits(d, s);
    FrameKeeps(d, ApplyLedger(d, s), threshold);
  }

  lemma CommitFacts(d: Db, s: LedgerStep)
    requires s.Commit? && LedgerInv(d) && Allowed(d, s)
    ensures d.txs.Keys !! d.sessions[s.sid].adds.Keys && d.jobs.issued.Keys !! d.sessions[s.sid].adds.Keys
    ensures forall x | x in ApplyLedger(d, s).txs :: ApplyLedger(d, s).txs[x].account in ApplyLedger(d, s).accounts
  {
    assert SessionOk(d, d.sessions[s.sid]);
    AddsAreNew(d, d.sessions[s.sid]);
    CommitConserves(d, s);
  }

  lemma CleanupFrame(d: Db, s: LedgerStep)
    requires s.Cleanup? && Linked(d) && Allowed(d, s) && GeneratedIds(d, s.user) != {}
    requires forall x | x in ApplyLedger(d, s).txs :: ApplyLedger(d, s).txs[x].account in ApplyLedger(d, s).accounts
    ensures Frame(d, ApplyLedger(d, s))
  {
    CleanupColumns(d, s);
    CleanupRows(d, s);
  }

  lemma CleanupColumns(d: Db, s: LedgerStep)
    requires s.Cleanup? && Allowed(d, s) && GeneratedIds(d, s.user) != {}
    ensures var d' := ApplyLedger(d, s);
      && (forall x | x in d'.txs :: x in d.txs && d'.txs[x] == d.txs[x])
      && (forall a | a in d'.accounts :: a in d.accounts && d'.accounts[a].user == d.accounts[a].user)
  {
    CleanupUsers(d, s.user, GeneratedIds(d, s.user));
  }

  lemma CleanupUsers(d: Db, user: Id, ids: set<Id>)
    requires ids == GeneratedIds(d, user) && ids != {}
    ensures var d' := CleanupUser(d, user);
      && d'.txs == d.txs - ids
      && forall a | a in d'.accounts :: a in d.accounts && d'.accounts[a].user == d.accounts[a].user
  {}

  lemma CleanupRows(d: Db, s: LedgerStep)
    requires s.Cleanup? && Linked(d) && Allowed(d, s) && GeneratedIds(d, s.user) != {}
    ensures var d' := ApplyLedger(d, s);
      && d'.events == d.events && d'.outbox.issued == d.outbox.issued
      && (forall o | o in d'.outbox.rows :: o in d.outbox.rows && d'.outbox.rows[o] == d.outbox.rows[o])
      && (forall o | o in d.outbox.rows && d.events[o].tx in d'.jobs.rows :: o in d'.outbox.rows)
      && (forall o | o in d'.outbox.rows :: d.events[o].tx in d'.jobs.rows && d.events[o].tx in d'.txs)
      && (forall x | x in d'.jobs.rows :: x in d.jobs.rows && d'.jobs.rows[x] == d.jobs.rows[x] && x in d'.txs)
  {}

  lemma CleanupKeepsEnrichment(d: Db, s: LedgerStep, threshold: real)
    requires s.Cleanup? && LedgerInv(d) && EnrichInv(d, threshold) && Allowed(d, s)
    ensures EnrichInv(ApplyLedger(d, s), threshold)
  {
    if GeneratedIds(d, s.user) != {} {
      var d' := ApplyLedger(d, s);
      FewerRowsKeepInv(d.jobs, d'.jobs.rows);
      FewerRowsKeepInv(d.outbox, d'.outbox.rows);
      CleanupConserves(d, s);
      InvLinked(d, threshold);
      CleanupFrame(d, s);
      assert WorkerAudits(d');
      FrameKeeps(d, d', threshold);
    }
  }

  lemma ColumnsFrame(d: Db, d': Db)
    requires Linked(d) && d'.accounts == d.accounts && d'.events == d.events && d'.jobs == d.jobs
             && d'.outbox == d.outbox
    requires d'.txs.Keys == d.txs.Keys
    requires forall x | x in d.txs ::
      && d'.txs[x].account == d.txs[x].account && d'.txs[x].amount == d.txs[x].amount
      && d'.txs[x].currency == d.txs[x].currency && d'.txs[x].score == d.txs[x].score
      && (d.txs[x].status.Categorized? ==> d'.txs[x].status.Categorized?)
    ensures Frame(d, d')
  {}

  /** Ingestion, corrections and cleanup keep the enrichment invariant. */
  lemma LedgerStepKeepsEnrichment(d: Db, s: LedgerStep, threshold: real)
    requires LedgerInv(d) && EnrichInv(d, threshold) && Allowed(d, s)
    ensures EnrichInv(ApplyLedger(d, s), threshold)
  {
    if s.Commit? {
      CommitKeepsEnrichment(d, s, threshold);
    } else if s.Cleanup? {
      CleanupKeepsEnrichment(d, s, threshold);
    } else {
      ColumnsKeep(d, s, threshold);
    }
  }

  lemma ColumnsKeep(d: Db, s: LedgerStep, threshold: real)
    requires LedgerInv(d) && EnrichInv(d, threshold) && Allowed(d, s) && !s.Commit? && !s.Cleanup?
    ensures EnrichInv(ApplyLedger(d, s), threshold)
  {
    InvLinked(d, threshold);
    RowsOnly(d, s);
    FrameKeeps(d, ApplyLedger(d, s), threshold);
  }

  lemma RowsOnly(d: Db, s: LedgerStep)
    requires Linked(d) && WorkerAudits(d) && Allowed(d, s) && !s.Commit? && !s.Cleanup?
    ensures Frame(d, ApplyLedger(d, s)) && WorkerAudits(ApplyLedger(d, s))
    ensures ApplyLedger(d, s).jobs == d.jobs && ApplyLedger(d, s).outbox == d.outbox
  {
    OnlyLedgerColumns(d, s);
    ColumnsFrame(d, ApplyLedger(d, s));
  }

  lemma OnlyLedgerColumns(d: Db, s: LedgerStep)
    requires Allowed(d, s) && !s.Commit? && !s.Cleanup? && WorkerAudits(d)
    ensures var d' := ApplyLedger(d, s);
      && d'.accounts == d.accounts && d'.events == d.events && d'.jobs == d.jobs && d'.outbox == d.outbox
      && d'.txs.Keys == d.txs.Keys && WorkerAudits(d')
  {}

  /** No worker step changes the category, its source or the score of an already categorized
      transaction; in particular a user's correction is never overwritten. */
  lemma WorkersRespectCategorized(d: Db, s: WorkStep, threshold: real, x: Id)
    requires CanWork(d, s) && x in d.txs && (d.txs[x].status.Categorized? || !s.CommitEnrichment? || s.claim.id != x)
    ensures x in ApplyWork(d, s, threshold).txs && ApplyWork(d, s, threshold).txs[x] == d.txs[x]
  {
    match s
    case CommitEnrichment(claim, _, c, score, at, ids, stamps) =>
      EnrichingRespects(d, claim, c, score, at, ids, stamps, threshold, x);
    case _ =>
  }

  lemma EnrichingRespects(d: Db, claim: WorkClaim, c: Classification, score: real, at: Instant, ids: seq<Id>,
                          stamps: seq<Instant>, threshold: real, x: Id)
    requires |ids| == 2 && |stamps| == 2 && x in d.txs && (d.txs[x].status.Categorized? || claim.id != x)
    ensures var d' := EnrichTx(d, claim, c, score, at, ids, stamps, threshold); x in d'.txs && d'.txs[x] == d.txs[x]
  {}
}
