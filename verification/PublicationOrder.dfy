/** With ordered insertion, each account's events are first published in outbox order. */
module PublicationOrder {
  import opened Common
  import opened Work
  import opened Leases
  import opened Fifo
  import opened Store
  import opened Ledger
  import opened Enrichment
  import opened Consumers
  import opened Pipeline
  import opened PipelineSteps
  import opened EndToEnd

  /** The insertion hypothesis: a row that appears sorts after the claimed rows of its partition. */
  ghost predicate RowsAppearInOrder(t: Table, t': Table) {
    forall n, r | n in t' && n !in t && r in t && r in t' && t'[n].partition == t[r].partition && t[r].attempts > 0
      :: !Before(t', n, r)
  }

  ghost predicate ReachesInOrder(cfg: Config, s: State, steps: seq<PipelineStep>)
    decreases |steps|
  {
    steps == [] || (Can(cfg, s, steps[0])
                    && RowsAppearInOrder(s.db.outbox.rows, Next(cfg, s, steps[0]).db.outbox.rows)
                    && ReachesInOrder(cfg, Next(cfg, s, steps[0]), steps[1..]))
  }

  /** Row `a` was published to partition `p` before its record `i`. */
  ghost predicate PrecededBy(log: Log, p: Id, i: int, a: Id) {
    exists j :: 0 <= j < i && j < |Records(log, p)| && Records(log, p)[j].Decoded? && Records(log, p)[j].id == a
  }

  ghost predicate Follows(t: Table, log: Log, p: Id, i: int, a: Id) {
    && 0 <= i < |Records(log, p)| && Records(log, p)[i].Decoded? && Records(log, p)[i].id in t && a in t
    && t[a].partition == t[Records(log, p)[i].id].partition && Before(t, a, Records(log, p)[i].id)
  }

  ghost predicate FirstInOrder(t: Table, log: Log) {
    forall p, i, a | Follows(t, log, p, i, a) :: PrecededBy(log, p, i, a)
  }

  // ---------------------------------------------------------------- the outbox stays ordered

  /** Rows of `t` still in `t'` keep their place, and rows of `t'` that were ever inserted before
      were in `t`. */
  ghost predicate SamePlaces(d: Db, t': Table) {
    && (forall r | r in t' && r in d.outbox.rows ::
          t'[r].partition == d.outbox.rows[r].partition && t'[r].createdAt == d.outbox.rows[r].createdAt)
    && (forall r | r in t' && r in d.events :: r in d.outbox.rows)
  }

  lemma EnrichPlaces(d: Db, d': Db, w: WorkStep, tx: Tx, es: seq<Event>, threshold: real)
    requires w.CommitEnrichment? && CanWork(d, w) && d.outbox.rows.Keys <= d.events.Keys
    requires w.claim.id in d.txs && w.claim.id in d.jobs.rows && Result(d, d', w, tx, es, threshold)
    ensures SamePlaces(d, d'.outbox.rows)
  {}

  lemma WorkPlaces(d: Db, w: WorkStep, threshold: real)
    requires LedgerInv(d) && EnrichInv(d, threshold) && CanWork(d, w)
    ensures SamePlaces(d, ApplyWork(d, w, threshold).outbox.rows)
  {
    if w.CommitEnrichment? {
      var tx, es := EnrichResult(d, w, threshold);
      EnrichPlaces(d, ApplyWork(d, w, threshold), w, tx, es, threshold);
    } else {
      ClaimPlaces(d, w, threshold);
    }
  }

  lemma ClaimPlaces(d: Db, w: WorkStep, threshold: real)
    requires CanWork(d, w) && !w.CommitEnrichment?
    ensures SamePlaces(d, ApplyWork(d, w, threshold).outbox.rows)
  {}

  lemma WorkKeepsOrder(d: Db, w: WorkStep, threshold: real)
    requires LedgerInv(d) && EnrichInv(d, threshold) && CanWork(d, w) && Ordered(d.outbox.rows)
    requires RowsAppearInOrder(d.outbox.rows, ApplyWork(d, w, threshold).outbox.rows)
    ensures Ordered(ApplyWork(d, w, threshold).outbox.rows)
  {
    match w
    case CommitEnrichment(_, _, _, _, _, _, _) =>
      var tx, es := EnrichResult(d, w, threshold);
      InsertKeepsOrderIff(d.outbox, Insert(RowsOf(es, w)));
    case ClaimEvent(id, now, lease, token, skip) => ApplyKeepsOrder(d.outbox, Claim(id, now, lease, token, skip));
    case RetryEvent(claim, at, error) => ApplyKeepsOrder(d.outbox, Retry(claim, at, error));
    case CompleteEvent(claim, _, at) => ApplyKeepsOrder(d.outbox, Complete(claim, at));
    case _ =>
  }

  lemma StepKeepsOrdered(cfg: Config, s: State, step: PipelineStep)
    requires PipelineInv(cfg, s) && Can(cfg, s, step) && Ordered(s.db.outbox.rows)
    requires RowsAppearInOrder(s.db.outbox.rows, Next(cfg, s, step).db.outbox.rows)
    ensures Ordered(Next(cfg, s, step).db.outbox.rows)
  {
    if step.OfWork? {
      WorkKeepsOrder(s.db, step.work, cfg.anomaly);
    } else if step.OfLedger? {
      LedgerShrinksOutbox(s.db, step.ledger);
      OrderedShrinks(s.db.outbox.rows, Next(cfg, s, step).db.outbox.rows);
    }
  }

  lemma LedgerShrinksOutbox(d: Db, l: LedgerStep)
    requires Allowed(d, l)
    ensures forall o | o in ApplyLedger(d, l).outbox.rows ::
      o in d.outbox.rows && ApplyLedger(d, l).outbox.rows[o] == d.outbox.rows[o]
  {}

  lemma OrderedShrinks(t: Table, t': Table)
    requires Ordered(t) && forall o | o in t' :: o in t && t'[o] == t[o]
    ensures Ordered(t')
  {
    forall p, r | p in t' && r in t' && t'[p].partition == t'[r].partition && Before(t', p, r) && t'[r].attempts > 0
      ensures t'[p].completedAt.Some?
    {
      assert Before(t, p, r);
    }
  }

  // ---------------------------------------------------------------- the log stays ordered

  /** The step changes no record and only adds rows that are in no record. */
  lemma FirstInOrderEvolves(cfg: Config, d: Db, log: Log, t': Table)
    requires FirstInOrder(d.outbox.rows, log) && LogOk(cfg, d, log) && Leases.Inv(d.outbox)
             && d.outbox.issued.Keys == d.events.Keys
    requires SamePlaces(d, t') && RowsAppearInOrder(d.outbox.rows, t')
    ensures FirstInOrder(t', log)
  {
    var t := d.outbox.rows;
    forall p, i, a | Follows(t', log, p, i, a)
      ensures PrecededBy(log, p, i, a)
    {
      var b := log[p][i].id;
      assert RecordOk(cfg, d, p, log[p][i]);
      assert b in t && RowMatches(t[b], d.outbox.issued[b]);
      if a in t { assert Follows(t, log, p, i, a); }
    }
  }

  /** A publish under any claim of `b`, current or stale, comes after all its predecessors. */
  lemma PublishInOrder(cfg: Config, s: State, step: PipelineStep)
    requires EnrichInv(s.db, cfg.anomaly) && PublishOk(cfg, s.db, s.log, s.acked)
    requires Ordered(s.db.outbox.rows) && FirstInOrder(s.db.outbox.rows, s.log)
    requires step.Publish? && Can(cfg, s, step)
    ensures FirstInOrder(s.db.outbox.rows, Next(cfg, s, step).log)
  {
    var t, log, log' := s.db.outbox.rows, s.log, Next(cfg, s, step).log;
    var b := step.id;
    var q := cfg.route(s.db.events[b].account);
    AppendGrows(log, q, Decoded(b, s.db.events[b]));
    forall p, i, a | Follows(t, log', p, i, a)
      ensures PrecededBy(log', p, i, a)
    {
      if i < |Records(log, p)| {
        assert Follows(t, log, p, i, a);
        var j :| 0 <= j < i && j < |Records(log, p)| && Records(log, p)[j].Decoded? && Records(log, p)[j].id == a;
        assert Records(log', p)[j] == Records(log, p)[j];
      } else {
        PredecessorLanded(cfg, s, a, b);
        var j :| 0 <= j < |Records(log, q)| && Records(log, q)[j] == Decoded(a, s.db.events[a]);
        assert Records(log', q)[j] == Records(log, q)[j];
      }
    }
  }

  lemma PredecessorLanded(cfg: Config, s: State, a: Id, b: Id)
    requires EnrichInv(s.db, cfg.anomaly) && PublishOk(cfg, s.db, s.log, s.acked) && Ordered(s.db.outbox.rows)
    requires b in s.db.events && b in s.db.outbox.issued && s.db.outbox.issued[b] != []
    requires var t := s.db.outbox.rows; a in t && b in t && t[a].partition == t[b].partition && Before(t, a, b)
    ensures a in s.db.events && Landed(cfg, s.db, s.log, a)
    ensures cfg.route(s.db.events[a].account) == cfg.route(s.db.events[b].account)
  {
    assert RowMatches(s.db.outbox.rows[b], s.db.outbox.issued[b]);
    assert RowFits(s.db, a, cfg.anomaly) && RowFits(s.db, b, cfg.anomaly);
  }

  lemma ForeignInOrder(s: State, p: Id, message: Message)
    requires FirstInOrder(s.db.outbox.rows, s.log) && !message.Decoded?
    ensures FirstInOrder(s.db.outbox.rows, Append(s.log, p, message))
  {
    var t, log, log' := s.db.outbox.rows, s.log, Append(s.log, p, message);
    AppendGrows(log, p, message);
    forall q, i, a | Follows(t, log', q, i, a)
      ensures PrecededBy(log', q, i, a)
    {
      assert Follows(t, log, q, i, a);
      var j :| 0 <= j < i && j < |Records(log, q)| && Records(log, q)[j].Decoded? && Records(log, q)[j].id == a;
      assert Records(log', q)[j] == Records(log, q)[j];
    }
  }

  lemma StepKeepsFirstInOrder(cfg: Config, s: State, step: PipelineStep)
    requires PipelineInv(cfg, s) && Can(cfg, s, step) && Ordered(s.db.outbox.rows)
    requires RowsAppearInOrder(s.db.outbox.rows, Next(cfg, s, step).db.outbox.rows)
    requires FirstInOrder(s.db.outbox.rows, s.log)
    ensures FirstInOrder(Next(cfg, s, step).db.outbox.rows, Next(cfg, s, step).log)
  {
    match step
    case Publish(_, _, _) => PublishInOrder(cfg, s, step);
    case Foreign(p, message) => ForeignInOrder(s, p, message);
    case _ => DbStepKeepsFirstInOrder(cfg, s, step);
  }

  lemma DbStepKeepsFirstInOrder(cfg: Config, s: State, step: PipelineStep)
    requires PipelineInv(cfg, s) && Can(cfg, s, step) && !step.Publish? && !step.Foreign?
    requires RowsAppearInOrder(s.db.outbox.rows, Next(cfg, s, step).db.outbox.rows)
    requires FirstInOrder(s.db.outbox.rows, s.log)
    ensures FirstInOrder(Next(cfg, s, step).db.outbox.rows, Next(cfg, s, step).log)
  {
    NextDb(cfg, s, step);
    LogStays(cfg, s, step);
    if step.OfWork? {
      WorkPlaces(s.db, step.work, cfg.anomaly);
      FirstInOrderEvolves(cfg, s.db, s.log, ApplyWork(s.db, step.work, cfg.anomaly).outbox.rows);
    } else if step.OfLedger? {
      LedgerShrinksOutbox(s.db, step.ledger);
      FirstInOrderEvolves(cfg, s.db, s.log, ApplyLedger(s.db, step.ledger).outbox.rows);
    }
  }

  lemma LogStays(cfg: Config, s: State, step: PipelineStep)
    requires Can(cfg, s, step) && !step.Publish? && !step.Foreign?
    ensures Next(cfg, s, step).log == s.log
  {}

  lemma {:induction false} OrderedRunsStayOrdered(cfg: Config, s: State, steps: seq<PipelineStep>)
    requires PipelineInv(cfg, s) && Ordered(s.db.outbox.rows) && FirstInOrder(s.db.outbox.rows, s.log)
    requires ReachesInOrder(cfg, s, steps)
    ensures Reaches(cfg, s, steps) && PipelineInv(cfg, Reached(cfg, s, steps))
    ensures var s' := Reached(cfg, s, steps); Ordered(s'.db.outbox.rows) && FirstInOrder(s'.db.outbox.rows, s'.log)
    decreases |steps|
  {
    if steps != [] {
      StepOk(cfg, s, steps[0]);
      StepKeepsOrdered(cfg, s, steps[0]);
      StepKeepsFirstInOrder(cfg, s, steps[0]);
      OrderedRunsStayOrdered(cfg, Next(cfg, s, steps[0]), steps[1..]);
    }
  }

  /** First publications follow the outbox order of their partition: in every run with ordered
      insertion, whenever an event of row `b` stands in the log, every row `a` that sorts before
      `b` in its partition was published earlier in the same broker partition. Duplicates that
      stale workers append later do not change this. */
  lemma FirstPublicationsFollowOutboxOrder(cfg: Config, s0: State, steps: seq<PipelineStep>, p: Id, i: nat, a: Id)
    requires Init(cfg, s0) && ReachesInOrder(cfg, s0, steps) && Reaches(cfg, s0, steps)
    requires var s := Reached(cfg, s0, steps); Follows(s.db.outbox.rows, s.log, p, i, a)
    ensures PrecededBy(Reached(cfg, s0, steps).log, p, i, a)
  {
    InitHolds(cfg, s0);
    OrderedRunsStayOrdered(cfg, s0, steps);
  }

  /** Every completed outbox row is in the log under its original event id and payload. */
  lemma CompletedRowsArePublished(cfg: Config, s0: State, steps: seq<PipelineStep>, o: Id)
    requires Init(cfg, s0) && Reaches(cfg, s0, steps)
    requires var t := Reached(cfg, s0, steps).db.outbox.rows; o in t && t[o].completedAt.Some?
    ensures var s := Reached(cfg, s0, steps);
      o in s.db.events && Decoded(o, s.db.events[o]) in Records(s.log, cfg.route(s.db.events[o].account))
  {
    InitHolds(cfg, s0);
    EveryRunKeepsInv(cfg, s0, steps);
    assert Landed(cfg, Reached(cfg, s0, steps).db, Reached(cfg, s0, steps).log, o);
  }

  // ---------------------------------------------------------------- no completion without acknowledgement

  /** A publish of row `o` under the lease with this token was acknowledged during the run. */
  predicate AcknowledgedDuring(steps: seq<PipelineStep>, o: Id, token: Id) { Publish(o, token, true) in steps }

  lemma {:induction false} AckedWasPublished(cfg: Config, s: State, steps: seq<PipelineStep>, o: Id, token: Id)
    requires Reaches(cfg, s, steps) && (o, token) in Reached(cfg, s, steps).acked && (o, token) !in s.acked
    ensures AcknowledgedDuring(steps, o, token)
    decreases |steps|
  {
    if steps != [] {
      var s' := Next(cfg, s, steps[0]);
      if (o, token) in s'.acked { NewlyAcked(cfg, s, steps[0], o, token); }
      else { AckedWasPublished(cfg, s', steps[1..], o, token); }
    }
  }

  lemma NewlyAcked(cfg: Config, s: State, step: PipelineStep, o: Id, token: Id)
    requires Can(cfg, s, step) && (o, token) in Next(cfg, s, step).acked && (o, token) !in s.acked
    ensures step == Publish(o, token, true)
  {}

  predicate IsFinished(d: Db, o: Id) { o in d.outbox.rows && d.outbox.rows[o].completedAt.Some? }

  lemma AnnouncedAreUnfinished(d: Db, d': Db, x: Id, tx: Tx, user: Id, score: real, threshold: real, o: Id)
    requires Announces(d, d', x, tx, user, score, threshold) && IsFinished(d', o)
    ensures IsFinished(d, o)
  {}

  lemma EnrichingFinishesNone(d: Db, w: WorkStep, threshold: real, o: Id)
    requires LedgerInv(d) && EnrichInv(d, threshold) && CanWork(d, w) && w.CommitEnrichment?
    requires IsFinished(ApplyWork(d, w, threshold), o)
    ensures IsFinished(d, o)
  {
    CommitRecords(d, w, threshold);
    var x, d' := w.claim.id, ApplyWork(d, w, threshold);
    AnnouncedAreUnfinished(d, d', x, d'.txs[x], d.accounts[d.txs[x].account].user,
                           if d'.txs[x].score.Some? then d'.txs[x].score.value else 0.0, threshold, o);
  }

  lemma WorkFinishes(d: Db, w: WorkStep, threshold: real, o: Id)
    requires CanWork(d, w) && !w.CommitEnrichment?
    requires IsFinished(ApplyWork(d, w, threshold), o) && !IsFinished(d, o)
    ensures w.CompleteEvent? && w.claim.id == o
  {}

  lemma NewlyFinished(cfg: Config, s: State, step: PipelineStep, o: Id) returns (token: Id)
    requires LedgerInv(s.db) && EnrichInv(s.db, cfg.anomaly) && Can(cfg, s, step)
    requires IsFinished(Next(cfg, s, step).db, o) && !IsFinished(s.db, o)
    ensures (o, token) in s.acked
  {
    NextDb(cfg, s, step);
    if step.OfLedger? { LedgerShrinksOutbox(s.db, step.ledger); }
    if step.OfWork? && step.work.CommitEnrichment? { EnrichingFinishesNone(s.db, step.work, cfg.anomaly, o); }
    WorkFinishes(s.db, step.work, cfg.anomaly, o);
    token := step.work.claim.token;
  }

  /** No outbox row is completed without an acknowledged publish of it, under some lease. */
  lemma {:induction false} FinishedWasAcked(cfg: Config, s: State, steps: seq<PipelineStep>, o: Id) returns (token: Id)
    requires PipelineInv(cfg, s) && Reaches(cfg, s, steps)
    requires IsFinished(Reached(cfg, s, steps).db, o) && !IsFinished(s.db, o)
    ensures (o, token) in s.acked || AcknowledgedDuring(steps, o, token)
    decreases |steps|
  {
    var s' := Next(cfg, s, steps[0]);
    if IsFinished(s'.db, o) {
      token := NewlyFinished(cfg, s, steps[0], o);
    } else {
      StepOk(cfg, s, steps[0]);
      token := FinishedWasAcked(cfg, s', steps[1..], o);
      if (o, token) in s'.acked && (o, token) !in s.acked { NewlyAcked(cfg, s, steps[0], o, token); }
    }
  }

  /** Over every run, each completed outbox row was published and acknowledged during it, whatever
      publishes failed or were repeated. */
  lemma CompletedRowsWereAcknowledged(cfg: Config, s0: State, steps: seq<PipelineStep>, o: Id)
    requires Init(cfg, s0) && Reaches(cfg, s0, steps)
    requires var t := Reached(cfg, s0, steps).db.outbox.rows; o in t && t[o].completedAt.Some?
    ensures exists token :: Publish(o, token, true) in steps
  {
    InitHolds(cfg, s0);
    var token := FinishedWasAcked(cfg, s0, steps, o);
  }
}
