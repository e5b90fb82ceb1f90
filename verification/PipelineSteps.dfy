/** Each kind of pipeline step keeps the pipeline invariant. */
module PipelineSteps {
  import opened Common
  import opened Store
  import opened Ledger
  import opened Enrichment
  import opened Consumers
  import opened Notifications
  import opened Pipeline

  // ---------------------------------------------------------------- how transactions evolve

  /** Amounts are fixed, a categorized transaction keeps its score, and no transaction that
      events speak of comes back. */
  ghost predicate TxsEvolve(d: Db, d': Db) {
    && (forall x | x in d.txs && x in d'.txs ::
          && d'.txs[x].amount == d.txs[x].amount && d'.txs[x].account == d.txs[x].account
          && (d.txs[x].status.Categorized? ==> d'.txs[x].status.Categorized? && d'.txs[x].score == d.txs[x].score))
    && (forall id | id in d.events :: d.events[id].tx in d'.txs ==> d.events[id].tx in d.txs)
    && (forall a | a in d.accounts && a in d'.accounts :: d'.accounts[a].user == d.accounts[a].user)
  }

  function Remaining(notes: Notes, txs: map<Id, Tx>): Notes {
    map n | n in notes && notes[n].alert.tx in txs :: notes[n]
  }

  lemma NotesEvolve(cfg: Config, d: Db, d': Db, notes: Notes, used: set<Id>)
    requires NotesOk(cfg, d.txs, notes, used) && TxsEvolve(d, d')
    ensures NotesOk(cfg, d'.txs, Remaining(notes, d'.txs), used)
  {
    var notes' := Remaining(notes, d'.txs);
    forall n | n in notes' ensures NoteOk(cfg, d'.txs, notes'[n]) {
      assert NoteOk(cfg, d.txs, notes[n]);
    }
  }

  lemma OwnersEvolve(d: Db, d': Db, notes: Notes)
    requires OwnersOk(d, notes) && TxsEvolve(d, d') && LedgerInv(d')
    ensures OwnersOk(d', Remaining(notes, d'.txs))
  {
    forall n | n in Remaining(notes, d'.txs) ensures ToOwner(d', notes[n].alert) {
      assert ToOwner(d, notes[n].alert);
    }
  }

  lemma AlertedEvolves(cfg: Config, d: Db, d': Db, notes: Notes, used: set<Id>, log: Log, p: Id, i: int)
    requires NotesOk(cfg, d.txs, notes, used) && TxsEvolve(d, d') && LogOk(cfg, d, log)
    requires Alerted(cfg, d.txs, notes, log, p, i)
    ensures Alerted(cfg, d'.txs, Remaining(notes, d'.txs), log, p, i)
  {
    var r := Records(log, p)[i];
    if r.Decoded? && r.event.tx in d'.txs {
      assert RecordOk(cfg, d, p, log[p][i]);
      forall key, n | n in notes && notes[n].alert.key == key
        && (key == LargeKey(r.event.tx) || key == AnomalyKey(r.event.tx))
        ensures HasKey(Remaining(notes, d'.txs), key)
      {
        assert NoteOk(cfg, d.txs, notes[n]);
        assert n in Remaining(notes, d'.txs);
      }
    }
  }

  lemma HandledEvolves(cfg: Config, d: Db, d': Db, notes: Notes, used: set<Id>, log: Log, g: Group)
    requires NotesOk(cfg, d.txs, notes, used) && TxsEvolve(d, d') && LogOk(cfg, d, log)
    requires HandledOk(cfg, d.txs, notes, log, g)
    ensures HandledOk(cfg, d'.txs, Remaining(notes, d'.txs), log, g)
  {
    forall x | x in g.done ensures Alerted(cfg, d'.txs, Remaining(notes, d'.txs), log, x.0, x.1) {
      AlertedEvolves(cfg, d, d', notes, used, log, x.0, x.1);
    }
    forall m | InPhase(g, m) && Held(g, m).phase.Running?
      ensures Alerted(cfg, d'.txs, Remaining(notes, d'.txs), log, Held(g, m).part, Held(g, m).offset)
    {
      AlertedEvolves(cfg, d, d', notes, used, log, Held(g, m).part, Held(g, m).offset);
    }
  }

  /** Events, their rows' claim histories and completions only grow. */
  ghost predicate EventsEvolve(d: Db, d': Db) {
    && (forall id | id in d.events :: id in d'.events && d'.events[id] == d.events[id])
    && (forall id | id in d.outbox.issued && d.outbox.issued[id] != [] ::
          id in d'.outbox.issued && d'.outbox.issued[id] != [])
  }

  lemma LogEvolves(cfg: Config, d: Db, d': Db, log: Log)
    requires LogOk(cfg, d, log) && EventsEvolve(d, d')
    ensures LogOk(cfg, d', log)
  {
    forall p, i | p in log && 0 <= i < |log[p]| ensures RecordOk(cfg, d', p, log[p][i]) {
      assert RecordOk(cfg, d, p, log[p][i]);
    }
  }

  lemma PublishEvolves(cfg: Config, d: Db, d': Db, log: Log, acked: set<(Id, Id)>)
    requires PublishOk(cfg, d, log, acked) && EventsEvolve(d, d')
    requires forall o | o in d'.outbox.rows && d'.outbox.rows[o].completedAt.Some? ::
      (o in d.outbox.rows && d.outbox.rows[o].completedAt.Some?) || (exists token :: (o, token) in acked)
    ensures PublishOk(cfg, d', log, acked)
  {
    forall a | a in acked ensures Landed(cfg, d', log, a.0) { assert Landed(cfg, d, log, a.0); }
    forall o | o in d'.outbox.rows && d'.outbox.rows[o].completedAt.Some? ensures Landed(cfg, d', log, o) {
      if token :| (o, token) in acked { assert Landed(cfg, d, log, (o, token).0); }
    }
  }

  // ---------------------------------------------------------------- ledger steps

  lemma LedgerKeepsColumns(d: Db, l: LedgerStep)
    requires Allowed(d, l)
    requires l.Commit? ==> d.txs.Keys !! d.sessions[l.sid].adds.Keys
    ensures var d' := ApplyLedger(d, l);
      && (forall x | x in d.txs && x in d'.txs ::
            && d'.txs[x].amount == d.txs[x].amount && d'.txs[x].account == d.txs[x].account
            && (d.txs[x].status.Categorized? ==> d'.txs[x].status.Categorized? && d'.txs[x].score == d.txs[x].score))
  {}

  lemma LedgerKeepsTxs(d: Db, l: LedgerStep)
    requires Allowed(d, l)
    requires l.Commit? ==>
      d.txs.Keys !! d.sessions[l.sid].adds.Keys
      && forall id | id in d.events :: d.events[id].tx !in d.sessions[l.sid].adds
    ensures TxsEvolve(d, ApplyLedger(d, l))
  {
    LedgerKeepsColumns(d, l);
    LedgerKeepsUsers(d, l);
    LedgerKeepsIds(d, l);
  }

  lemma LedgerKeepsUsers(d: Db, l: LedgerStep)
    requires Allowed(d, l)
    ensures var d' := ApplyLedger(d, l);
      forall a | a in d.accounts && a in d'.accounts :: d'.accounts[a].user == d.accounts[a].user
  {
    if l.Cleanup? && GeneratedIds(d, l.user) != {} { CleanupUsers(d, l.user, GeneratedIds(d, l.user)); }
  }

  lemma LedgerKeepsIds(d: Db, l: LedgerStep)
    requires Allowed(d, l)
    ensures var d' := ApplyLedger(d, l);
      && (!l.Commit? ==> d'.txs.Keys <= d.txs.Keys)
      && (l.Commit? ==> d'.txs == d.txs + d.sessions[l.sid].adds)
  {}

  lemma LedgerKeepsEvents(d: Db, l: LedgerStep)
    requires Allowed(d, l)
    ensures var d' := ApplyLedger(d, l);
      && EventsEvolve(d, d') && d.jobs.issued.Keys <= d'.jobs.issued.Keys
      && (forall o | o in d'.outbox.rows :: o in d.outbox.rows && d'.outbox.rows[o] == d.outbox.rows[o])
  {}

  lemma LedgerKeepsKept(d: Db, l: LedgerStep)
    requires Allowed(d, l) && Kept(d)
    requires l.Commit? ==> d.jobs.issued.Keys !! d.sessions[l.sid].adds.Keys
    ensures Kept(ApplyLedger(d, l))
  {}

  lemma LedgerEvolves(d: Db, l: LedgerStep)
    requires Allowed(d, l) && Kept(d)
    requires l.Commit? ==>
      d.txs.Keys !! d.sessions[l.sid].adds.Keys && d.jobs.issued.Keys !! d.sessions[l.sid].adds.Keys
    ensures var d' := ApplyLedger(d, l);
      TxsEvolve(d, d') && EventsEvolve(d, d') && Kept(d')
      && (forall o | o in d'.outbox.rows :: o in d.outbox.rows && d'.outbox.rows[o] == d.outbox.rows[o])
  {
    if l.Commit? {
      forall id | id in d.events ensures d.events[id].tx !in d.sessions[l.sid].adds {
        assert d.events[id].tx in d.jobs.issued.Keys;
      }
    }
    LedgerKeepsTxs(d, l);
    LedgerKeepsEvents(d, l);
    LedgerKeepsKept(d, l);
  }

  lemma LedgerStepOk(cfg: Config, s: State, step: PipelineStep)
    requires step.OfLedger? && PipelineInv(cfg, s) && Can(cfg, s, step)
    ensures PipelineInv(cfg, Next(cfg, s, step))
  {
    var l, d := step.ledger, s.db;
    var d' := ApplyLedger(d, l);
    LedgerStepKeeps(d, l);
    LedgerStepKeepsEnrichment(d, l, cfg.anomaly);
    if l.Commit? { CommitFacts(d, l); }
    LedgerEvolves(d, l);
    LogEvolves(cfg, d, d', s.log);
    PublishEvolves(cfg, d, d', s.log, s.acked);
    NotesEvolve(cfg, d, d', s.notes, s.usedNotes);
    OwnersEvolve(d, d', s.notes);
    HandledEvolves(cfg, d, d', s.notes, s.usedNotes, s.log, s.group);
  }

  // ---------------------------------------------------------------- worker steps

  /** What a worker step leaves for the later stages. */
  ghost predicate WorkEffect(d: Db, d': Db, w: WorkStep) {
    && TxsEvolve(d, d') && EventsEvolve(d, d') && Kept(d') && d'.txs.Keys == d.txs.Keys
    && (forall o | o in d'.outbox.rows && d'.outbox.rows[o].completedAt.Some? ::
          (o in d.outbox.rows && d.outbox.rows[o].completedAt.Some?) || (w.CompleteEvent? && o == w.claim.id))
  }

  lemma QueueEffect(d: Db, w: WorkStep, threshold: real)
    requires CanWork(d, w) && Kept(d) && !w.CommitEnrichment?
    ensures WorkEffect(d, ApplyWork(d, w, threshold), w)
  {}

  lemma EnrichEffect(d: Db, d': Db, w: WorkStep, tx: Tx, es: seq<Event>, threshold: real)
    requires CanWork(d, w) && Kept(d) && w.CommitEnrichment? && d.outbox.issued.Keys == d.events.Keys
    requires w.claim.id in d.txs && w.claim.id in d.jobs.issued && Result(d, d', w, tx, es, threshold)
    requires forall e | e in es :: e.tx == w.claim.id
    ensures WorkEffect(d, d', w)
  {
    EnrichKept(d, d', w, tx, es, threshold);
  }

  lemma EnrichKept(d: Db, d': Db, w: WorkStep, tx: Tx, es: seq<Event>, threshold: real)
    requires CanWork(d, w) && Kept(d) && w.CommitEnrichment? && d.outbox.issued.Keys == d.events.Keys
    requires w.claim.id in d.txs && w.claim.id in d.jobs.issued && Result(d, d', w, tx, es, threshold)
    requires forall e | e in es :: e.tx == w.claim.id
    ensures Kept(d') && EventsEvolve(d, d')
  {
    PayloadFacts(d, es, w);
    var r, p := RowsOf(es, w), PayloadsOf(es, w);
    assert forall id | id in p :: id in r && p[id].tx == w.claim.id;
  }

  lemma WorkEffects(d: Db, w: WorkStep, threshold: real)
    requires LedgerInv(d) && EnrichInv(d, threshold) && CanWork(d, w) && Kept(d)
    ensures WorkEffect(d, ApplyWork(d, w, threshold), w)
  {
    if w.CommitEnrichment? {
      var tx, es := EnrichResult(d, w, threshold);
      EnrichJoins(d, w, tx, es, threshold);
      EnrichEffect(d, ApplyWork(d, w, threshold), w, tx, es, threshold);
    } else {
      QueueEffect(d, w, threshold);
    }
  }

  lemma AllRemain(cfg: Config, txs: map<Id, Tx>, txs': map<Id, Tx>, notes: Notes, used: set<Id>)
    requires NotesOk(cfg, txs, notes, used) && txs'.Keys == txs.Keys
    ensures Remaining(notes, txs') == notes
  {
    assert forall n | n in notes :: NoteOk(cfg, txs, notes[n]);
  }

  lemma WorkStepOk(cfg: Config, s: State, step: PipelineStep)
    requires step.OfWork? && PipelineInv(cfg, s) && Can(cfg, s, step)
    ensures PipelineInv(cfg, Next(cfg, s, step))
  {
    var w, d := step.work, s.db;
    var d' := ApplyWork(d, w, cfg.anomaly);
    WorkStepKeeps(d, w, cfg.anomaly);
    WorkEffects(d, w, cfg.anomaly);
    LogEvolves(cfg, d, d', s.log);
    if w.CompleteEvent? { assert (w.claim.id, w.claim.token) in s.acked; }
    PublishEvolves(cfg, d, d', s.log, s.acked);
    NotesEvolve(cfg, d, d', s.notes, s.usedNotes);
    OwnersEvolve(d, d', s.notes);
    HandledEvolves(cfg, d, d', s.notes, s.usedNotes, s.log, s.group);
    AllRemain(cfg, d.txs, d'.txs, s.notes, s.usedNotes);
  }

  // ---------------------------------------------------------------- the broker log

  lemma AppendGrows(log: Log, p: Id, message: Message)
    ensures Grows(log, Append(log, p, message))
    ensures forall q, i | 0 <= i < |Records(log, q)| :: i < |Records(Append(log, p, message), q)|
                                                        && Records(Append(log, p, message), q)[i] == Records(log, q)[i]
  {}

  lemma AppendHandled(cfg: Config, s: State, p: Id, message: Message)
    requires HandledOk(cfg, s.db.txs, s.notes, s.log, s.group)
    ensures HandledOk(cfg, s.db.txs, s.notes, Append(s.log, p, message), s.group)
  {
    var log := Append(s.log, p, message);
    AppendGrows(s.log, p, message);
    forall x | x in s.group.done ensures Alerted(cfg, s.db.txs, s.notes, log, x.0, x.1) {
      assert Alerted(cfg, s.db.txs, s.notes, s.log, x.0, x.1);
    }
  }

  lemma AppendLog(cfg: Config, d: Db, log: Log, p: Id, message: Message)
    requires LogOk(cfg, d, log) && RecordOk(cfg, d, p, message)
    ensures LogOk(cfg, d, Append(log, p, message))
  {
    var log' := Append(log, p, message);
    forall q, i | q in log' && 0 <= i < |log'[q]| ensures RecordOk(cfg, d, q, log'[q][i]) {
      if q in log && i < |log[q]| { assert RecordOk(cfg, d, q, log[q][i]); }
    }
  }

  lemma LandedStays(cfg: Config, d: Db, log: Log, p: Id, message: Message, id: Id)
    requires Landed(cfg, d, log, id)
    ensures Landed(cfg, d, Append(log, p, message), id)
  {
    AppendGrows(log, p, message);
    var q := cfg.route(d.events[id].account);
    var i :| 0 <= i < |Records(log, q)| && Records(log, q)[i] == Decoded(id, d.events[id]);
    assert Records(Append(log, p, message), q)[i] == Decoded(id, d.events[id]);
  }

  lemma LogStepOk(cfg: Config, s: State, step: PipelineStep)
    requires (step.Publish? || step.Foreign?) && PipelineInv(cfg, s) && Can(cfg, s, step)
    ensures PipelineInv(cfg, Next(cfg, s, step))
  {
    var s' := Next(cfg, s, step);
    var p, message;
    if step.Publish? {
      p, message := cfg.route(s.db.events[step.id].account), Decoded(step.id, s.db.events[step.id]);
    } else {
      p, message := step.part, step.message;
    }
    AppendGrows(s.log, p, message);
    AppendLog(cfg, s.db, s.log, p, message);
    GrowthKeeps(s.log, s'.log, s.group);
    AppendHandled(cfg, s, p, message);
    AppendPublish(cfg, s, step, p, message);
  }

  lemma AppendPublish(cfg: Config, s: State, step: PipelineStep, p: Id, message: Message)
    requires PublishOk(cfg, s.db, s.log, s.acked) && (step.Publish? || step.Foreign?) && Can(cfg, s, step)
    requires Next(cfg, s, step).log == Append(s.log, p, message)
    requires step.Publish? ==>
      p == cfg.route(s.db.events[step.id].account) && message == Decoded(step.id, s.db.events[step.id])
    ensures var s' := Next(cfg, s, step); PublishOk(cfg, s'.db, s'.log, s'.acked)
  {
    var s' := Next(cfg, s, step);
    forall a | a in s'.acked ensures Landed(cfg, s.db, s'.log, a.0) {
      if a in s.acked { LandedStays(cfg, s.db, s.log, p, message, a.0); }
      else { assert Records(s'.log, p)[|Records(s.log, p)|] == message; }
    }
    forall o | o in s.db.outbox.rows && s.db.outbox.rows[o].completedAt.Some? ensures Landed(cfg, s.db, s'.log, o) {
      LandedStays(cfg, s.db, s.log, p, message, o);
    }
  }

  // ---------------------------------------------------------------- the consumer group

  lemma GroupStepOk(cfg: Config, s: State, step: PipelineStep)
    requires step.OfGroup? && PipelineInv(cfg, s) && Can(cfg, s, step)
    ensures PipelineInv(cfg, Next(cfg, s, step))
  {
    GroupStepKeeps(s.log, s.group, step.group);
    GroupHandled(cfg, s, step.group);
  }

  lemma GroupHandled(cfg: Config, s: State, g: GroupStep)
    requires HandledOk(cfg, s.db.txs, s.notes, s.log, s.group) && CanGroup(s.log, s.group, g)
    ensures HandledOk(cfg, s.db.txs, s.notes, s.log, ApplyGroup(s.log, s.group, g))
  {
    var group' := ApplyGroup(s.log, s.group, g);
    forall m | InPhase(group', m) && Held(group', m).phase.Running?
      ensures Alerted(cfg, s.db.txs, s.notes, s.log, Held(group', m).part, Held(group', m).offset)
    {
      assert InPhase(s.group, m) && Held(s.group, m) == Held(group', m);
    }
  }

  // ---------------------------------------------------------------- the handler

  lemma StoredStays(notes: Notes, notes': Notes, e: Event, th: Thresholds)
    requires Stored(notes, e, th) && notes.Keys <= notes'.Keys && forall n | n in notes ::
      notes'[n].alert == notes[n].alert
    ensures Stored(notes', e, th)
  {
    forall key | HasKey(notes, key) ensures HasKey(notes', key) {
      var n :| n in notes && notes[n].alert.key == key;
      assert n in notes';
    }
  }

  lemma HandledGrows(cfg: Config, txs: map<Id, Tx>, notes: Notes, notes': Notes, log: Log, p: Id, i: int)
    requires Alerted(cfg, txs, notes, log, p, i)
    requires notes.Keys <= notes'.Keys && forall n | n in notes :: notes'[n].alert == notes[n].alert
    ensures Alerted(cfg, txs, notes', log, p, i)
  {
    var r := Records(log, p)[i];
    if r.Decoded? && r.event.tx in txs { StoredStays(notes, notes', r.event, cfg.rules); }
  }

  /** A handler step only adds alerts; whatever it reports done is alerted. */
  lemma HandlerHandled(cfg: Config, s: State, s': State, m: Id, done: set<(Id, nat)>)
    requires HandledOk(cfg, s.db.txs, s.notes, s.log, s.group)
    requires InPhase(s.group, m) && InPhase(s'.group, m) && s'.log == s.log && s'.db == s.db
    requires s.notes.Keys <= s'.notes.Keys && forall n | n in s.notes :: s'.notes[n].alert == s.notes[n].alert
    requires forall o | o in s'.group.members && o != m ::
      o in s.group.members && s'.group.members[o] == s.group.members[o]
    requires Held(s'.group, m).part == Held(s.group, m).part && Held(s'.group, m).offset == Held(s.group, m).offset
    requires s'.group.done == s.group.done + done && done <= {(Held(s.group, m).part, Held(s.group, m).offset)}
    requires Held(s'.group, m).phase.Running? || done != {} ==>
      Alerted(cfg, s.db.txs, s'.notes, s.log, Held(s.group, m).part, Held(s.group, m).offset)
    ensures HandledOk(cfg, s'.db.txs, s'.notes, s'.log, s'.group)
  {
    forall x | x in s'.group.done ensures Alerted(cfg, s'.db.txs, s'.notes, s'.log, x.0, x.1) {
      if x in s.group.done { HandledGrows(cfg, s.db.txs, s.notes, s'.notes, s.log, x.0, x.1); }
      else { assert x in done; }
    }
    forall o | InPhase(s'.group, o) && Held(s'.group, o).phase.Running?
      ensures Alerted(cfg, s'.db.txs, s'.notes, s'.log, Held(s'.group, o).part, Held(s'.group, o).offset)
    {
      if o != m {
        var f := Held(s.group, o);
        HandledGrows(cfg, s.db.txs, s.notes, s'.notes, s.log, f.part, f.offset);
      }
    }
  }

  /** A known record whose transaction exists tells the truth about it. */
  lemma RecordIsTrue(cfg: Config, d: Db, log: Log, p: Id, i: nat)
    requires EnrichInv(d, cfg.anomaly) && Kept(d) && LogOk(cfg, d, log)
    requires i < |Records(log, p)| && Records(log, p)[i].Decoded? && Records(log, p)[i].event.tx in d.txs
    ensures var e := Records(log, p)[i].event; Describes(d, e, cfg.anomaly) && d.txs[e.tx].status.Categorized?
  {
    assert RecordOk(cfg, d, p, log[p][i]);
    assert RowFits(d, log[p][i].id, cfg.anomaly);
    assert Finished(d, log[p][i].event.tx, cfg.anomaly);
  }

  lemma NewNoteOk(cfg: Config, d: Db, e: Event, h: HandlerStep, a: Alert)
    requires e.tx in d.txs && Describes(d, e, cfg.anomaly) && d.txs[e.tx].status.Categorized?
    requires h.StoreAlerts? && a in Alerts(cfg, e, h)
    ensures NoteOk(cfg, d.txs, Note(a, false)) && ToOwner(d, a)
  {}

  lemma AlertsNameTheirTx(cfg: Config, e: Event, h: HandlerStep, a: Alert)
    requires h.StoreAlerts? && a in Alerts(cfg, e, h)
    ensures a.tx == e.tx && a.user == e.user
  {}

  /** The store step adds the event's missing alerts and nothing else. */
  lemma StoreAdds(cfg: Config, s: State, m: Id, h: HandlerStep)
    requires NotesOk(cfg, s.db.txs, s.notes, s.usedNotes) && Handling(s, m) && CanStore(cfg, s, EventAt(s, m), h)
    ensures var e := EventAt(s, m); var notes := NotesAfter(cfg, s, e, h);
      && AddsAlerts(s.notes, notes, Alerts(cfg, e, h), h.ids[..|Alerts(cfg, e, h)|])
      && UniqueKeys(notes) && Stored(notes, e, cfg.rules)
  {
    var e := EventAt(s, m);
    var alerts, notes := Alerts(cfg, e, h), NotesAfter(cfg, s, e, h);
    StoreAllAdds(s.notes, alerts, h.ids);
    EvaluateStores(s.notes, notes, e, cfg.rules, if e.TransactionCategorized? then h.spend else None, h.month,
        h.ids[..|alerts|]);
  }

  lemma StoreNotes(cfg: Config, s: State, m: Id, h: HandlerStep)
    requires EnrichInv(s.db, cfg.anomaly) && Kept(s.db) && LogOk(cfg, s.db, s.log)
    requires NotesOk(cfg, s.db.txs, s.notes, s.usedNotes) && Handling(s, m) && CanStore(cfg, s, EventAt(s, m), h)
    requires OwnersOk(s.db, s.notes)
    ensures var notes := NotesAfter(cfg, s, EventAt(s, m), h);
      NotesOk(cfg, s.db.txs, notes, s.usedNotes + notes.Keys) && OwnersOk(s.db, notes)
  {
    var notes := NotesAfter(cfg, s, EventAt(s, m), h);
    StoreAdds(cfg, s, m, h);
    forall n | n in notes ensures NoteOk(cfg, s.db.txs, notes[n]) && ToOwner(s.db, notes[n].alert) {
      if n in s.notes {
        assert NoteOk(cfg, s.db.txs, s.notes[n]) && ToOwner(s.db, s.notes[n].alert);
      } else {
        FreshNoteOk(cfg, s, m, h, notes[n]);
      }
    }
  }

  lemma FreshNoteOk(cfg: Config, s: State, m: Id, h: HandlerStep, n: Note)
    requires EnrichInv(s.db, cfg.anomaly) && Kept(s.db) && LogOk(cfg, s.db, s.log)
    requires Handling(s, m) && h.StoreAlerts? && n.alert in Alerts(cfg, EventAt(s, m), h) && n.alert.tx in s.db.txs
             && !n.delivered
    ensures NoteOk(cfg, s.db.txs, n) && ToOwner(s.db, n.alert)
  {
    AlertsNameTheirTx(cfg, EventAt(s, m), h, n.alert);
    RecordIsTrue(cfg, s.db, s.log, Held(s.group, m).part, Held(s.group, m).offset);
    NewNoteOk(cfg, s.db, EventAt(s, m), h, n.alert);
  }

  /** The invariant's parts a handler step is about. */
  ghost predicate HandlerInv(cfg: Config, s: State) {
    && GroupInv(s.log, s.group) && NotesOk(cfg, s.db.txs, s.notes, s.usedNotes) && OwnersOk(s.db, s.notes)
    && HandledOk(cfg, s.db.txs, s.notes, s.log, s.group)
  }

  lemma StoreStepParts(cfg: Config, s: State, m: Id, h: HandlerStep)
    requires EnrichInv(s.db, cfg.anomaly) && Kept(s.db) && LogOk(cfg, s.db, s.log)
    requires HandlerInv(cfg, s) && CanHandle(cfg, s, m, h) && h.StoreAlerts?
    ensures HandlerInv(cfg, ApplyHandler(cfg, s, m, h))
  {
    var s' := ApplyHandler(cfg, s, m, h);
    StoreAdds(cfg, s, m, h);
    StoreNotes(cfg, s, m, h);
    PhaseKeeps(s.log, s.group, m, Held(s'.group, m).phase);
    HandlerHandled(cfg, s, s', m, {});
  }

  lemma MarkNotes(cfg: Config, s: State, n: Id)
    requires NotesOk(cfg, s.db.txs, s.notes, s.usedNotes) && OwnersOk(s.db, s.notes) && n in s.notes
    ensures var notes := s.notes[n := s.notes[n].(delivered := true)];
      NotesOk(cfg, s.db.txs, notes, s.usedNotes) && OwnersOk(s.db, notes)
  {
    var notes := s.notes[n := s.notes[n].(delivered := true)];
    forall o | o in s.notes ensures NoteOk(cfg, s.db.txs, notes[o]) && ToOwner(s.db, notes[o].alert) {
      assert NoteOk(cfg, s.db.txs, s.notes[o]) && ToOwner(s.db, s.notes[o].alert);
    }
  }

  lemma DeliveryStepParts(cfg: Config, s: State, m: Id, h: HandlerStep)
    requires HandlerInv(cfg, s) && CanHandle(cfg, s, m, h) && (h.Send? || h.Mark? || h.Fail?)
    ensures HandlerInv(cfg, ApplyHandler(cfg, s, m, h))
  {
    var s' := ApplyHandler(cfg, s, m, h);
    var f := Held(s.group, m);
    PhaseKeeps(s.log, s.group, m, Held(s'.group, m).phase);
    if f.phase.Running? {
      assert Alerted(cfg, s.db.txs, s.notes, s.log, f.part, f.offset);
      if h.Mark? && f.phase.todo[0] in s.notes {
        MarkNotes(cfg, s, f.phase.todo[0]);
      }
      HandledGrows(cfg, s.db.txs, s.notes, s'.notes, s.log, f.part, f.offset);
    }
    HandlerHandled(cfg, s, s', m, {});
  }

  lemma ReturnStepParts(cfg: Config, s: State, m: Id, h: HandlerStep)
    requires HandlerInv(cfg, s) && CanHandle(cfg, s, m, h) && h.Return?
    ensures HandlerInv(cfg, ApplyHandler(cfg, s, m, h))
  {
    var s', f := ApplyHandler(cfg, s, m, h), Held(s.group, m);
    FinishKeeps(s.log, s.group, m);
    assert Alerted(cfg, s.db.txs, s.notes, s.log, f.part, f.offset);
    HandlerHandled(cfg, s, s', m, {(f.part, f.offset)});
  }

  lemma HandlerStepParts(cfg: Config, s: State, m: Id, h: HandlerStep)
    requires EnrichInv(s.db, cfg.anomaly) && Kept(s.db) && LogOk(cfg, s.db, s.log)
    requires HandlerInv(cfg, s) && CanHandle(cfg, s, m, h)
    ensures HandlerInv(cfg, ApplyHandler(cfg, s, m, h))
  {
    match h
    case StoreAlerts(_, _, _, _, _) => StoreStepParts(cfg, s, m, h);
    case Return => ReturnStepParts(cfg, s, m, h);
    case _ => DeliveryStepParts(cfg, s, m, h);
  }

  lemma HandlerLeaves(cfg: Config, s: State, m: Id, h: HandlerStep)
    requires CanHandle(cfg, s, m, h)
    ensures var s' := ApplyHandler(cfg, s, m, h); s'.db == s.db && s'.log == s.log && s'.acked == s.acked
  {}

  lemma HandlerStepOk(cfg: Config, s: State, m: Id, h: HandlerStep)
    requires PipelineInv(cfg, s) && CanHandle(cfg, s, m, h)
    ensures PipelineInv(cfg, ApplyHandler(cfg, s, m, h))
  {
    HandlerStepParts(cfg, s, m, h);
    HandlerLeaves(cfg, s, m, h);
  }

  /** One step of anyone, anywhere, keeps the pipeline invariant. */
  lemma StepOk(cfg: Config, s: State, step: PipelineStep)
    requires PipelineInv(cfg, s) && Can(cfg, s, step)
    ensures PipelineInv(cfg, Next(cfg, s, step))
  {
    match step
    case OfLedger(_) => LedgerStepOk(cfg, s, step);
    case OfWork(_) => WorkStepOk(cfg, s, step);
    case Publish(_, _, _) => LogStepOk(cfg, s, step);
    case Foreign(_, _) => LogStepOk(cfg, s, step);
    case OfGroup(_) => GroupStepOk(cfg, s, step);
    case OfHandler(m, h) => HandlerStepOk(cfg, s, m, h);
  }
}
