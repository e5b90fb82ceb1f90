/** The whole pipeline as one step system: ledger, workers, broker log, consumers, alerts.
    Every step is one database transaction, one broker action or one move of the environment. */
module Pipeline {
  import opened Common
  import opened Leases
  import opened Store
  import opened Ledger
  import opened Enrichment
  import opened Consumers
  import opened Notifications

  /** `route` is the broker's choice of partition for a key. */
  datatype Config = Config(anomaly: real, rules: Thresholds, route: Id -> Id)

  /** `acked` holds the (row, lease token) pairs whose publish was acknowledged to the worker;
      `usedNotes` holds the ids of all alerts ever stored, deleted ones too; `sends` counts
      deliveries of each alert and `fails` the handler runs that ended between sending it and
      recording that. */
  datatype State = State(
    db: Db, log: Log, acked: set<(Id, Id)>, group: Group,
    notes: Notes, usedNotes: set<Id>, sends: multiset<Id>, fails: multiset<Id>)

  datatype HandlerStep =
    | StoreAlerts(spend: Option<int>, month: int, ids: seq<Id>, todo: seq<Id>, ok: bool)
    | Send
    | Mark(ok: bool)
    | Fail
    | Return

  datatype PipelineStep =
    | OfLedger(ledger: LedgerStep)
    | OfWork(work: WorkStep)
    | Publish(id: Id, token: Id, acknowledged: bool)
    | Foreign(part: Id, message: Message)
    | OfGroup(group: GroupStep)
    | OfHandler(m: Id, handler: HandlerStep)

  // ---------------------------------------------------------------- the handler

  predicate Handling(s: State, m: Id) {
    InPhase(s.group, m) && var f := Held(s.group, m);
    f.offset < |Records(s.log, f.part)| && Records(s.log, f.part)[f.offset].Decoded?
  }

  function EventAt(s: State, m: Id): Event
    requires Handling(s, m)
  {
    Records(s.log, Held(s.group, m).part)[Held(s.group, m).offset].event
  }

  function Alerts(cfg: Config, e: Event, h: HandlerStep): seq<Alert>
    requires h.StoreAlerts?
  {
    Evaluate(e, cfg.rules, if e.TransactionCategorized? then h.spend else None, h.month)
  }

  function NotesAfter(cfg: Config, s: State, e: Event, h: HandlerStep): Notes
    requires h.StoreAlerts? && |Alerts(cfg, e, h)| <= |h.ids|
  {
    StoreAll(s.notes, Alerts(cfg, e, h), h.ids)
  }

  /** Storing obeys the foreign key: an alert is only inserted for an existing transaction.
      `todo` lists the pending alerts in the order the query returned them. */
  predicate CanStore(cfg: Config, s: State, e: Event, h: HandlerStep) {
    && h.StoreAlerts? && |Alerts(cfg, e, h)| <= |h.ids| && Distinct(h.ids)
    && (forall i | 0 <= i < |h.ids| :: h.ids[i] !in s.usedNotes)
    && var notes := NotesAfter(cfg, s, e, h);
       && (forall n | n in notes && n !in s.notes :: notes[n].alert.tx in s.db.txs)
       && Distinct(h.todo) && (set n | n in h.todo) == Pending(notes, e.user, e.tx)
  }

  predicate CanHandle(cfg: Config, s: State, m: Id, h: HandlerStep) {
    Handling(s, m) && var phase := Held(s.group, m).phase;
    match h
    case StoreAlerts(_, _, _, _, _) => phase.Ready? && CanStore(cfg, s, EventAt(s, m), h)
    case Send => phase.Running? && phase.todo != [] && !phase.sent
    case Mark(_) => phase.Running? && phase.todo != [] && phase.sent
    case Fail => phase.Ready? || phase.Running?
    case Return => phase.Running? && phase.todo == []
  }

  function SentButUnmarked(phase: Phase): multiset<Id> {
    if phase.Running? && phase.sent && phase.todo != [] then multiset{phase.todo[0]} else multiset{}
  }

  function ApplyHandler(cfg: Config, s: State, m: Id, h: HandlerStep): State
    requires CanHandle(cfg, s, m, h)
  {
    var e, phase := EventAt(s, m), Held(s.group, m).phase;
    match h
    case StoreAlerts(_, _, _, todo, ok) =>
      var notes := NotesAfter(cfg, s, e, h);
      s.(notes := notes, usedNotes := s.usedNotes + notes.Keys,
         group := WithPhase(s.group, m, if ok then Running(todo, Of(notes, e.user, e.tx), false) else Ready))
    case Send =>
      s.(sends := s.sends + multiset{phase.todo[0]},
         group := WithPhase(s.group, m, Running(phase.todo, phase.seen, true)))
    case Mark(ok) =>
      var n := phase.todo[0];
      s.(notes := if n in s.notes then s.notes[n := s.notes[n].(delivered := true)] else s.notes,
         fails := if ok then s.fails else s.fails + multiset{n},
         group := WithPhase(s.group, m, if ok then Running(phase.todo[1..], phase.seen, false) else Ready))
    case Fail => s.(fails := s.fails + SentButUnmarked(phase), group := WithPhase(s.group, m, Ready))
    case Return => s.(group := Finish(s.group, m))
  }

  // ---------------------------------------------------------------- all steps

  /** A worker holding a claim, however stale, may publish the row it read under that claim. */
  predicate WasIssued(q: Queue, id: Id, token: Id) {
    id in q.issued && exists i | 0 <= i < |q.issued[id]| :: q.issued[id][i].token == token
  }

  function Append(log: Log, p: Id, message: Message): Log { log[p := Records(log, p) + [message]] }

  ghost predicate Can(cfg: Config, s: State, step: PipelineStep) {
    match step
    case OfLedger(l) => Allowed(s.db, l)
    case OfWork(w) => CanWork(s.db, w) && (w.CompleteEvent? ==> (w.claim.id, w.claim.token) in s.acked)
    case Publish(id, token, _) => id in s.db.events && WasIssued(s.db.outbox, id, token)
    case Foreign(_, message) => !message.Decoded?
    case OfGroup(g) => CanGroup(s.log, s.group, g)
    case OfHandler(m, h) => CanHandle(cfg, s, m, h)
  }

  ghost function Next(cfg: Config, s: State, step: PipelineStep): State
    requires Can(cfg, s, step)
  {
    match step
    case OfLedger(l) =>
      var db := ApplyLedger(s.db, l);
      s.(db := db, notes := map n | n in s.notes && s.notes[n].alert.tx in db.txs :: s.notes[n])
    case OfWork(w) => s.(db := ApplyWork(s.db, w, cfg.anomaly))
    case Publish(id, token, acknowledged) =>
      var e := s.db.events[id];
      s.(log := Append(s.log, cfg.route(e.account), Decoded(id, e)),
         acked := if acknowledged then s.acked + {(id, token)} else s.acked)
    case Foreign(p, message) => s.(log := Append(s.log, p, message))
    case OfGroup(g) =>
      s.(group := ApplyGroup(s.log, s.group, g),
         fails := if g.Crash? && InPhase(s.group, g.m)
                  then s.fails + SentButUnmarked(Held(s.group, g.m).phase) else s.fails)
    case OfHandler(m, h) => ApplyHandler(cfg, s, m, h)
  }

  /** Only ledger and worker steps move the database. */
  lemma NextDb(cfg: Config, s: State, step: PipelineStep)
    requires Can(cfg, s, step)
    ensures step.OfLedger? ==> Next(cfg, s, step).db == ApplyLedger(s.db, step.ledger)
    ensures step.OfWork? ==> Next(cfg, s, step).db == ApplyWork(s.db, step.work, cfg.anomaly)
    ensures !step.OfLedger? && !step.OfWork? ==> Next(cfg, s, step).db == s.db
  {}

  // ---------------------------------------------------------------- the invariant

  /** Every event ever written still has its row while its transaction exists. */
  ghost predicate Kept(d: Db) {
    forall id | id in d.events :: d.events[id].tx in d.jobs.issued && (d.events[id].tx in d.txs ==> id in d.outbox.rows)
  }

  /** Known records in the log are outbox rows that had been claimed, on their key's partition. */
  ghost predicate RecordOk(cfg: Config, d: Db, p: Id, message: Message) {
    message.Decoded? ==>
      && message.id in d.events && message.event == d.events[message.id] && p == cfg.route(message.event.account)
      && message.id in d.outbox.issued && d.outbox.issued[message.id] != []
  }

  ghost predicate LogOk(cfg: Config, d: Db, log: Log) {
    forall p, i | p in log && 0 <= i < |log[p]| :: RecordOk(cfg, d, p, log[p][i])
  }

  ghost predicate Landed(cfg: Config, d: Db, log: Log, id: Id) {
    id in d.events && Decoded(id, d.events[id]) in Records(log, cfg.route(d.events[id].account))
  }

  /** No completion without publication, and no acknowledgement without it either. */
  ghost predicate PublishOk(cfg: Config, d: Db, log: Log, acked: set<(Id, Id)>) {
    && (forall a | a in acked :: Landed(cfg, d, log, a.0))
    && (forall o | o in d.outbox.rows && d.outbox.rows[o].completedAt.Some? :: Landed(cfg, d, log, o))
  }

  /** An alert's kind, transaction and user are those its key stands for. */
  predicate KindFits(a: Alert) {
    match a.key
    case LargeKey(x) => a.kind.LargeTransaction? && x == a.tx
    case AnomalyKey(x) => a.kind.AnomalyFlagged? && x == a.tx
    case BudgetKey(user, _, _, _) => a.kind.BudgetThreshold? && user == a.user
  }

  /** A stored alert belongs to a transaction that deserves it. */
  ghost predicate NoteOk(cfg: Config, txs: map<Id, Tx>, n: Note) {
    n.alert.tx in txs && KindFits(n.alert) && var tx := txs[n.alert.tx];
    match n.alert.key
    case LargeKey(_) => tx.amount < 0 && -tx.amount >= cfg.rules.large
    case AnomalyKey(_) => tx.status.Categorized? && ScoreOrZero(tx) >= cfg.anomaly
    case BudgetKey(_, _, _, _) => true
  }

  /** An alert is addressed to the owner of its transaction's account. */
  predicate ToOwner(d: Db, a: Alert) {
    a.tx in d.txs && d.txs[a.tx].account in d.accounts && d.accounts[d.txs[a.tx].account].user == a.user
  }

  ghost predicate OwnersOk(d: Db, notes: Notes) { forall n | n in notes :: ToOwner(d, notes[n].alert) }

  ghost predicate NotesOk(cfg: Config, txs: map<Id, Tx>, notes: Notes, used: set<Id>) {
    && notes.Keys <= used && UniqueKeys(notes)
    && forall n | n in notes :: NoteOk(cfg, txs, notes[n])
  }

  /** The alerts a handled record calls for are in store, while its transaction exists. */
  ghost predicate Alerted(cfg: Config, txs: map<Id, Tx>, notes: Notes, log: Log, p: Id, i: int) {
    0 <= i < |Records(log, p)|
    && var r := Records(log, p)[i];
       r.Decoded? && r.event.tx in txs ==> Stored(notes, r.event, cfg.rules)
  }

  ghost predicate HandledOk(cfg: Config, txs: map<Id, Tx>, notes: Notes, log: Log, g: Group) {
    && (forall d | d in g.done :: Alerted(cfg, txs, notes, log, d.0, d.1))
    && (forall m | InPhase(g, m) && Held(g, m).phase.Running? ::
          Alerted(cfg, txs, notes, log, Held(g, m).part, Held(g, m).offset))
  }

  ghost predicate PipelineInv(cfg: Config, s: State) {
    && LedgerInv(s.db) && EnrichInv(s.db, cfg.anomaly) && Kept(s.db)
    && LogOk(cfg, s.db, s.log) && PublishOk(cfg, s.db, s.log, s.acked)
    && GroupInv(s.log, s.group)
    && NotesOk(cfg, s.db.txs, s.notes, s.usedNotes) && OwnersOk(s.db, s.notes)
    && HandledOk(cfg, s.db.txs, s.notes, s.log, s.group)
  }

  /** Any conserved ledger whose transactions have no job yet; nothing published or stored. */
  ghost predicate Init(cfg: Config, s: State) {
    && LedgerInv(s.db) && s.db.jobs == EMPTY && s.db.outbox == EMPTY && s.db.events == map[] && s.db.sessions == map[]
    && (forall x :: s.db.audits[Audit(CategorizedByWorker, x)] == 0)
    && s.log == map[] && s.acked == {} && s.group == NO_GROUP
    && s.notes == map[] && s.usedNotes == {} && s.sends == multiset{} && s.fails == multiset{}
  }

  lemma InitHolds(cfg: Config, s: State)
    requires Init(cfg, s)
    ensures PipelineInv(cfg, s)
  {}
}
