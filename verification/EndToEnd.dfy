/** What holds in every reachable state of the pipeline, and what holds once it is quiet. */
module EndToEnd {
  import opened Common
  import opened Work
  import opened Store
  import opened Ledger
  import opened Enrichment
  import opened Consumers
  import opened Notifications
  import opened Pipeline
  import opened PipelineSteps

  ghost predicate Reaches(cfg: Config, s: State, steps: seq<PipelineStep>)
    decreases |steps|
  {
    steps == [] || (Can(cfg, s, steps[0]) && Reaches(cfg, Next(cfg, s, steps[0]), steps[1..]))
  }

  ghost function Reached(cfg: Config, s: State, steps: seq<PipelineStep>): State
    requires Reaches(cfg, s, steps)
    decreases |steps|
  {
    if steps == [] then s else Reached(cfg, Next(cfg, s, steps[0]), steps[1..])
  }

  lemma {:induction false} EveryRunKeepsInv(cfg: Config, s: State, steps: seq<PipelineStep>)
    requires PipelineInv(cfg, s) && Reaches(cfg, s, steps)
    ensures PipelineInv(cfg, Reached(cfg, s, steps))
    decreases |steps|
  {
    if steps != [] {
      StepOk(cfg, s, steps[0]);
      EveryRunKeepsInv(cfg, Next(cfg, s, steps[0]), steps[1..]);
    }
  }

  // ---------------------------------------------------------------- quiet states

  predicate Deserves(cfg: Config, tx: Tx, key: Key) {
    match key
    case LargeKey(_) => tx.amount < 0 && -tx.amount >= cfg.rules.large
    case AnomalyKey(_) => ScoreOrZero(tx) >= cfg.anomaly
    case BudgetKey(_, _, _, _) => true
  }

  /** The work of one transaction is over: its job and outbox rows are completed and every
      record of the log lies below its partition's committed offset. */
  ghost predicate Quiet(s: State, x: Id) {
    && x in s.db.jobs.rows && s.db.jobs.rows[x].completedAt.Some?
    && (forall o | o in s.db.outbox.rows && o in s.db.events && s.db.events[o].tx == x ::
          s.db.outbox.rows[o].completedAt.Some?)
    && (forall p :: |Records(s.log, p)| <= Committed(s.group, p))
  }

  /** A completed outbox row of a quiet transaction was handled, so its alerts are in store. */
  lemma QuietRowIsStored(cfg: Config, s: State, x: Id, o: Id)
    requires PipelineInv(cfg, s) && Quiet(s, x) && x in s.db.txs
    requires o in s.db.outbox.rows && o in s.db.events && s.db.events[o].tx == x
    ensures Stored(s.notes, s.db.events[o], cfg.rules)
  {
    var e := s.db.events[o];
    var p := cfg.route(e.account);
    assert Landed(cfg, s.db, s.log, o);
    var i :| 0 <= i < |Records(s.log, p)| && Records(s.log, p)[i] == Decoded(o, e);
    assert |Records(s.log, p)| <= Committed(s.group, p);
    assert (p, i) in s.group.done;
    assert Alerted(cfg, s.db.txs, s.notes, s.log, (p, i).0, (p, i).1);
  }

  lemma QuietLargeAlert(cfg: Config, s: State, x: Id)
    requires PipelineInv(cfg, s) && Quiet(s, x) && x in s.db.txs
    ensures Deserves(cfg, s.db.txs[x], LargeKey(x)) ==> HasKey(s.notes, LargeKey(x))
  {
    assert Finished(s.db, x, cfg.anomaly);
    var o :| o in s.db.outbox.rows && o in s.db.events && s.db.events[o].tx == x
      && s.db.events[o].TransactionCategorized?;
    QuietRowIsStored(cfg, s, x, o);
    assert RowFits(s.db, o, cfg.anomaly);
  }

  lemma QuietAnomalyAlert(cfg: Config, s: State, x: Id)
    requires PipelineInv(cfg, s) && Quiet(s, x) && x in s.db.txs && Deserves(cfg, s.db.txs[x], AnomalyKey(x))
    ensures HasKey(s.notes, AnomalyKey(x))
  {
    assert Finished(s.db, x, cfg.anomaly);
    var a :| a in s.db.outbox.rows && a in s.db.events && s.db.events[a].tx == x
      && s.db.events[a].TransactionAnomalyFlagged?;
    QuietRowIsStored(cfg, s, x, a);
  }

  lemma AlertsAreDeserved(cfg: Config, txs: map<Id, Tx>, notes: Notes, used: set<Id>, x: Id, key: Key)
    requires NotesOk(cfg, txs, notes, used) && HasKey(notes, key) && (key == LargeKey(x) || key == AnomalyKey(x))
    ensures x in txs && Deserves(cfg, txs[x], key)
  {
    var n :| n in notes && notes[n].alert.key == key;
    assert NoteOk(cfg, txs, notes[n]);
  }

  predicate AtMostOne(notes: Notes, x: Id, kind: Kind) {
    forall a, b | a in notes && b in notes && notes[a].alert.tx == x && notes[b].alert.tx == x
      && notes[a].alert.kind == kind && notes[b].alert.kind == kind :: a == b
  }

  /** Each large or anomaly alert of a transaction fits its key, so each kind comes once. */
  lemma OneOfEachKind(cfg: Config, txs: map<Id, Tx>, notes: Notes, used: set<Id>, x: Id)
    requires NotesOk(cfg, txs, notes, used)
    ensures forall n | n in notes :: KindFits(notes[n].alert)
    ensures AtMostOne(notes, x, LargeTransaction) && AtMostOne(notes, x, AnomalyFlagged)
  {
    forall n | n in notes ensures KindFits(notes[n].alert) { assert NoteOk(cfg, txs, notes[n]); }
  }

  lemma RunKeepsNotes(cfg: Config, s0: State, steps: seq<PipelineStep>)
    requires Init(cfg, s0) && Reaches(cfg, s0, steps)
    ensures var s := Reached(cfg, s0, steps);
      NotesOk(cfg, s.db.txs, s.notes, s.usedNotes) && OwnersOk(s.db, s.notes)
  {
    InitHolds(cfg, s0);
    EveryRunKeepsInv(cfg, s0, steps);
  }

  lemma QuietHasAll(cfg: Config, s0: State, steps: seq<PipelineStep>, x: Id, key: Key)
    requires Init(cfg, s0) && Reaches(cfg, s0, steps) && (key == LargeKey(x) || key == AnomalyKey(x))
    requires var s := Reached(cfg, s0, steps); x in s.db.txs && Quiet(s, x) && Deserves(cfg, s.db.txs[x], key)
    ensures HasKey(Reached(cfg, s0, steps).notes, key)
  {
    InitHolds(cfg, s0);
    EveryRunKeepsInv(cfg, s0, steps);
    if key.LargeKey? { QuietLargeAlert(cfg, Reached(cfg, s0, steps), x); }
    else { QuietAnomalyAlert(cfg, Reached(cfg, s0, steps), x); }
  }

  /** The pipeline's purpose. Over every run, with crashes, expired leases, duplicate publishes,
      failed handlers, rebalances, ambiguous and late commits: every alert is addressed to the
      owner of its transaction's account, no transaction ever has two large or two anomaly
      alerts, none has one it does not deserve, and once its work is over it has exactly those
      it deserves. */
  lemma ExactlyTheDeservedAlerts(cfg: Config, s0: State, steps: seq<PipelineStep>, x: Id)
    requires Init(cfg, s0) && Reaches(cfg, s0, steps)
    ensures var s := Reached(cfg, s0, steps);
      && (forall n | n in s.notes :: KindFits(s.notes[n].alert) && ToOwner(s.db, s.notes[n].alert))
      && AtMostOne(s.notes, x, LargeTransaction) && AtMostOne(s.notes, x, AnomalyFlagged)
    ensures var s := Reached(cfg, s0, steps);
      forall key | key == LargeKey(x) || key == AnomalyKey(x) ::
        && (HasKey(s.notes, key) ==> x in s.db.txs && Deserves(cfg, s.db.txs[x], key))
        && (x in s.db.txs && Quiet(s, x) ==> (HasKey(s.notes, key) <==> Deserves(cfg, s.db.txs[x], key)))
  {
    var s := Reached(cfg, s0, steps);
    RunKeepsNotes(cfg, s0, steps);
    OneOfEachKind(cfg, s.db.txs, s.notes, s.usedNotes, x);
    forall key | key == LargeKey(x) || key == AnomalyKey(x)
      ensures HasKey(s.notes, key) ==> x in s.db.txs && Deserves(cfg, s.db.txs[x], key)
      ensures x in s.db.txs && Quiet(s, x) ==> (HasKey(s.notes, key) <==> Deserves(cfg, s.db.txs[x], key))
    {
      if HasKey(s.notes, key) { AlertsAreDeserved(cfg, s.db.txs, s.notes, s.usedNotes, x, key); }
      if x in s.db.txs && Quiet(s, x) && Deserves(cfg, s.db.txs[x], key) { QuietHasAll(cfg, s0, steps, x, key); }
    }
  }

  // ---------------------------------------------------------------- no record is lost

  /** A commit that was given up on lands behind what its own generation committed since. */
  ghost predicate MovesBack(s: State, step: PipelineStep, p: Id) {
    step.OfGroup? && LandsBehind(s.group, step.group, p)
  }

  lemma StepMovesBackIff(cfg: Config, s: State, step: PipelineStep, p: Id)
    requires GroupInv(s.log, s.group) && Can(cfg, s, step)
    ensures Committed(Next(cfg, s, step).group, p) < Committed(s.group, p) <==> MovesBack(s, step, p)
  {
    if step.OfGroup? { GroupStepKeeps(s.log, s.group, step.group); }
  }

  /** No step of the run lowers the partition's committed offset. */
  ghost predicate NeverDecreases(cfg: Config, s: State, steps: seq<PipelineStep>, p: Id)
    requires Reaches(cfg, s, steps)
    decreases |steps|
  {
    steps != [] ==>
      var s' := Next(cfg, s, steps[0]);
      Committed(s.group, p) <= Committed(s'.group, p) && NeverDecreases(cfg, s', steps[1..], p)
  }

  ghost predicate NoneMovesBack(cfg: Config, s: State, steps: seq<PipelineStep>, p: Id)
    requires Reaches(cfg, s, steps)
    decreases |steps|
  {
    steps != [] ==> !MovesBack(s, steps[0], p) && NoneMovesBack(cfg, Next(cfg, s, steps[0]), steps[1..], p)
  }

  /** A partition's committed offset never decreases during a run exactly when no commit that was
      given up on lands behind later ones of its generation. */
  lemma {:induction false} OffsetsNeverDecreaseIff(cfg: Config, s: State, steps: seq<PipelineStep>, p: Id)
    requires PipelineInv(cfg, s) && Reaches(cfg, s, steps)
    ensures NeverDecreases(cfg, s, steps, p) <==> NoneMovesBack(cfg, s, steps, p)
    ensures NoneMovesBack(cfg, s, steps, p) ==> Committed(s.group, p) <= Committed(Reached(cfg, s, steps).group, p)
    decreases |steps|
  {
    if steps != [] {
      StepOk(cfg, s, steps[0]);
      StepMovesBackIff(cfg, s, steps[0], p);
      OffsetsNeverDecreaseIff(cfg, Next(cfg, s, steps[0]), steps[1..], p);
    }
  }

  /** Step `step` of state `s` handles record `(p, i)` to its end: the handler returned normally,
      or the record is one no handler can process. */
  ghost predicate HandlesRecord(s: State, step: PipelineStep, p: Id, i: nat) {
    match step
    case OfHandler(m, Return) => InPhase(s.group, m) && Held(s.group, m).part == p && Held(s.group, m).offset == i
    case OfGroup(Skip(m)) =>
      InPhase(s.group, m) && Held(s.group, m).part == p && Held(s.group, m).offset == i
      && i < |Records(s.log, p)| && !Records(s.log, p)[i].Decoded?
    case _ => false
  }

  ghost predicate HandledDuring(cfg: Config, s: State, steps: seq<PipelineStep>, p: Id, i: nat)
    requires Reaches(cfg, s, steps)
    decreases |steps|
  {
    steps != [] && (HandlesRecord(s, steps[0], p, i) || HandledDuring(cfg, Next(cfg, s, steps[0]), steps[1..], p, i))
  }

  lemma NewlyDone(cfg: Config, s: State, step: PipelineStep, p: Id, i: nat)
    requires Can(cfg, s, step) && (p, i) in Next(cfg, s, step).group.done && (p, i) !in s.group.done
    ensures HandlesRecord(s, step, p, i)
  {}

  lemma {:induction false} DoneWasHandled(cfg: Config, s: State, steps: seq<PipelineStep>, p: Id, i: nat)
    requires Reaches(cfg, s, steps) && (p, i) in Reached(cfg, s, steps).group.done && (p, i) !in s.group.done
    ensures HandledDuring(cfg, s, steps, p, i)
    decreases |steps|
  {
    if steps != [] {
      var s' := Next(cfg, s, steps[0]);
      if (p, i) in s'.group.done { NewlyDone(cfg, s, steps[0], p, i); }
      else { DoneWasHandled(cfg, s', steps[1..], p, i); }
    }
  }

  /** Every record below a committed offset was handled to the end during the run, or was
      unprocessable - even if late commits moved the offset back and forth. */
  lemma NoRecordIsLost(cfg: Config, s0: State, steps: seq<PipelineStep>, p: Id, i: nat)
    requires Init(cfg, s0) && Reaches(cfg, s0, steps) && i < Committed(Reached(cfg, s0, steps).group, p)
    ensures HandledDuring(cfg, s0, steps, p, i)
  {
    InitHolds(cfg, s0);
    EveryRunKeepsInv(cfg, s0, steps);
    var s := Reached(cfg, s0, steps);
    assert (p, i) in s.group.done;
    DoneWasHandled(cfg, s0, steps, p, i);
  }

  // ---------------------------------------------------------------- ledger and enrichment, over every run

  /** Every transaction of the run's own was given a job. */
  ghost predicate NewOnesIssued(d0: Db, d: Db) { forall x | x in d.txs :: x in d0.txs || x in d.jobs.issued }

  lemma StepIssues(cfg: Config, d0: Db, s: State, step: PipelineStep)
    requires LedgerInv(s.db) && Can(cfg, s, step) && NewOnesIssued(d0, s.db)
    ensures NewOnesIssued(d0, Next(cfg, s, step).db)
  {
    NextDb(cfg, s, step);
    if step.OfLedger? {
      LedgerIssues(s.db, step.ledger);
    } else if step.OfWork? {
      WorkIssues(s.db, step.work, cfg.anomaly);
    }
  }

  lemma LedgerIssues(d: Db, l: LedgerStep)
    requires LedgerInv(d) && Allowed(d, l)
    ensures var d' := ApplyLedger(d, l);
      d.jobs.issued.Keys <= d'.jobs.issued.Keys && forall x | x in d'.txs && x !in d.txs :: x in d'.jobs.issued
  {
    LedgerStepKeeps(d, l);
  }

  lemma WorkIssues(d: Db, w: WorkStep, threshold: real)
    requires CanWork(d, w)
    ensures ApplyWork(d, w, threshold).txs.Keys == d.txs.Keys
    ensures d.jobs.issued.Keys <= ApplyWork(d, w, threshold).jobs.issued.Keys
  {
    WorkLeavesLedger(d, w, threshold);
  }

  lemma {:induction false} RunIssues(cfg: Config, d0: Db, s: State, steps: seq<PipelineStep>)
    requires PipelineInv(cfg, s) && Reaches(cfg, s, steps) && NewOnesIssued(d0, s.db)
    ensures NewOnesIssued(d0, Reached(cfg, s, steps).db)
    decreases |steps|
  {
    if steps != [] {
      StepOk(cfg, s, steps[0]);
      StepIssues(cfg, d0, s, steps[0]);
      RunIssues(cfg, d0, Next(cfg, s, steps[0]), steps[1..]);
    }
  }

  /** Balances and external ids of every reachable ledger; and every transaction that appeared
      during the run has its job and exactly one ingest audit. */
  lemma LedgerAlwaysConserved(cfg: Config, s0: State, steps: seq<PipelineStep>)
    requires Init(cfg, s0) && Reaches(cfg, s0, steps)
    ensures var d := Reached(cfg, s0, steps).db;
      && (forall a | a in d.accounts :: d.accounts[a].balance == Sum(d.txs, a))
      && (forall x, y | x in d.txs && y in d.txs && d.txs[x].account == d.txs[y].account
          && d.txs[x].extId == d.txs[y].extId :: x == y)
      && (forall x | x in d.txs && x !in s0.db.txs :: x in d.jobs.rows && d.audits[Audit(Ingested, x)] == 1)
  {
    InitHolds(cfg, s0);
    EveryRunKeepsInv(cfg, s0, steps);
    RunIssues(cfg, s0.db, s0, steps);
  }

  /** Enrichment is all or nothing. */
  lemma EnrichmentIsAtomic(cfg: Config, s0: State, steps: seq<PipelineStep>, x: Id)
    requires Init(cfg, s0) && Reaches(cfg, s0, steps) && x in Reached(cfg, s0, steps).db.jobs.rows
    ensures var d := Reached(cfg, s0, steps).db;
      if d.jobs.rows[x].completedAt.Some? then
        x in d.txs && d.txs[x].status.Categorized? && HasEvent(d, x, false)
        && (HasEvent(d, x, true) <==> ScoreOrZero(d.txs[x]) >= cfg.anomaly)
        && (forall o, p | o in d.outbox.rows && p in d.outbox.rows && o in d.events && p in d.events
              && d.events[o].tx == x && d.events[p].tx == x
              && d.events[o].TransactionAnomalyFlagged? == d.events[p].TransactionAnomalyFlagged? :: o == p)
      else !HasEvent(d, x, false) && !HasEvent(d, x, true) && d.audits[Audit(CategorizedByWorker, x)] == 0
  {
    InitHolds(cfg, s0);
    EveryRunKeepsInv(cfg, s0, steps);
    var d := Reached(cfg, s0, steps).db;
    if d.jobs.rows[x].completedAt.Some? { assert Finished(d, x, cfg.anomaly); }
    else { UnfinishedLeavesNoTrace(d, cfg.anomaly, x); }
  }

  // ---------------------------------------------------------------- user corrections

  predicate Gone(d: Db, x: Id) {
    x in d.used && x !in d.txs && forall sid | sid in d.sessions :: x !in d.sessions[sid].adds
  }

  predicate Corrects(step: PipelineStep, x: Id) { step.OfLedger? && step.ledger.Recategorize? && step.ledger.tx == x }

  lemma StepKeepsCategory(cfg: Config, s: State, step: PipelineStep, x: Id)
    requires LedgerInv(s.db) && Can(cfg, s, step) && x in s.db.txs && s.db.txs[x].status.Categorized?
             && !Corrects(step, x)
    ensures var d' := Next(cfg, s, step).db;
      (x in d'.txs && d'.txs[x] == s.db.txs[x]) || Gone(d', x)
  {
    if step.OfWork? {
      WorkersRespectCategorized(s.db, step.work, cfg.anomaly, x);
    } else if step.OfLedger? {
      LedgerKeepsCategory(s.db, step.ledger, x);
    }
  }

  lemma LedgerKeepsCategory(d: Db, l: LedgerStep, x: Id)
    requires LedgerInv(d) && Allowed(d, l) && x in d.txs && !(l.Recategorize? && l.tx == x)
    ensures (x in ApplyLedger(d, l).txs && ApplyLedger(d, l).txs[x] == d.txs[x]) || Gone(ApplyLedger(d, l), x)
  {
    forall sid | sid in d.sessions ensures x !in d.sessions[sid].adds {
      AddsAreNew(d, d.sessions[sid]);
    }
  }

  lemma GoneStaysGone(cfg: Config, s: State, step: PipelineStep, x: Id)
    requires Can(cfg, s, step) && Gone(s.db, x)
    ensures Gone(Next(cfg, s, step).db, x)
  {
    if step.OfLedger? { LedgerNeverRevives(s.db, step.ledger, x); }
    if step.OfWork? { WorkLeavesLedger(s.db, step.work, cfg.anomaly); }
  }

  predicate SameLedgerTables(d: Db, d': Db) {
    d'.txs.Keys == d.txs.Keys && d'.used == d.used && d'.sessions == d.sessions && d'.accounts == d.accounts
  }

  lemma EnrichLeavesLedger(d: Db, claim: WorkClaim, c: Classification, score: real, at: Instant, ids: seq<Id>,
                           stamps: seq<Instant>, threshold: real)
    requires |ids| == 2 && |stamps| == 2
    ensures SameLedgerTables(d, EnrichTx(d, claim, c, score, at, ids, stamps, threshold))
  {}

  lemma WorkLeavesLedger(d: Db, w: WorkStep, threshold: real)
    requires CanWork(d, w)
    ensures SameLedgerTables(d, ApplyWork(d, w, threshold))
  {
    match w
    case CommitEnrichment(claim, _, c, score, at, ids, stamps) =>
      EnrichLeavesLedger(d, claim, c, score, at, ids, stamps, threshold);
    case _ =>
  }

  lemma LedgerNeverRevives(d: Db, l: LedgerStep, x: Id)
    requires Allowed(d, l) && Gone(d, x)
    ensures Gone(ApplyLedger(d, l), x)
  {}

  lemma {:induction false} GoneForever(cfg: Config, s: State, steps: seq<PipelineStep>, x: Id)
    requires Reaches(cfg, s, steps) && Gone(s.db, x)
    ensures Gone(Reached(cfg, s, steps).db, x)
    decreases |steps|
  {
    if steps != [] {
      GoneStaysGone(cfg, s, steps[0], x);
      GoneForever(cfg, Next(cfg, s, steps[0]), steps[1..], x);
    }
  }

  predicate NeverCorrected(steps: seq<PipelineStep>, x: Id) { forall i | 0 <= i < |steps| :: !Corrects(steps[i], x) }

  predicate SameOrGone(d: Db, x: Id, tx: Tx) { (x in d.txs && d.txs[x] == tx) || Gone(d, x) }

  lemma CorrectionSurvives(cfg: Config, s: State, step: PipelineStep, x: Id, tx: Tx)
    requires PipelineInv(cfg, s) && Can(cfg, s, step) && !Corrects(step, x)
    requires tx.status.Categorized? && SameOrGone(s.db, x, tx)
    ensures PipelineInv(cfg, Next(cfg, s, step)) && SameOrGone(Next(cfg, s, step).db, x, tx)
  {
    StepOk(cfg, s, step);
    if x in s.db.txs { StepKeepsCategory(cfg, s, step, x); } else { GoneStaysGone(cfg, s, step, x); }
  }

  lemma LaterUncorrected(steps: seq<PipelineStep>, x: Id)
    requires steps != [] && NeverCorrected(steps, x)
    ensures !Corrects(steps[0], x) && NeverCorrected(steps[1..], x)
  {}

  lemma {:induction false} CategoryStands(cfg: Config, s: State, steps: seq<PipelineStep>, x: Id, tx: Tx)
    requires PipelineInv(cfg, s) && Reaches(cfg, s, steps) && NeverCorrected(steps, x)
    requires tx.status.Categorized? && SameOrGone(s.db, x, tx)
    ensures SameOrGone(Reached(cfg, s, steps).db, x, tx)
    decreases |steps|
  {
    if steps != [] {
      LaterUncorrected(steps, x);
      CorrectionSurvives(cfg, s, steps[0], x, tx);
      CategoryStands(cfg, Next(cfg, s, steps[0]), steps[1..], x, tx);
    }
  }

  /** A user's correction stands: whatever workers do afterwards, until the user corrects the
      transaction again its category, source and score stay, or the transaction is deleted. */
  lemma CorrectionStands(cfg: Config, s: State, steps: seq<PipelineStep>, x: Id)
    requires PipelineInv(cfg, s) && Reaches(cfg, s, steps)
    requires x in s.db.txs && s.db.txs[x].status.Categorized?
    requires forall i | 0 <= i < |steps| :: !Corrects(steps[i], x)
    ensures var d' := Reached(cfg, s, steps).db; (x in d'.txs && d'.txs[x] == s.db.txs[x]) || Gone(d', x)
  {
    CategoryStands(cfg, s, steps, x, s.db.txs[x]);
  }
}
