/** Where the enrichment of a transaction comes from, over every run. */
module Provenance {
  import opened Common
  import opened Store
  import opened Ledger
  import opened Enrichment
  import opened Pipeline
  import opened PipelineSteps
  import opened EndToEnd

  /** The step by which a worker categorizes transaction `x` with this result. */
  ghost predicate Categorizes(s: State, step: PipelineStep, x: Id, c: Classification, score: real, at: Instant) {
    && x in s.db.txs && !s.db.txs[x].status.Categorized?
    && step.OfWork? && step.work.CommitEnrichment? && step.work.claim.id == x
    && step.work.result == c && step.work.score == score && step.work.at == at
  }

  /** Such a step occurs in the run. */
  ghost predicate CategorizedDuring(cfg: Config, s: State, steps: seq<PipelineStep>, x: Id, c: Classification,
                                    score: real, at: Instant)
    requires Reaches(cfg, s, steps)
    decreases |steps|
  {
    steps != []
    && (Categorizes(s, steps[0], x, c, score, at)
        || CategorizedDuring(cfg, Next(cfg, s, steps[0]), steps[1..], x, c, score, at))
  }

  /** The row carries the score a worker computed. */
  predicate Scored(tx: Tx, score: real) { tx.status.Categorized? && tx.score == Some(score) }

  lemma WorkScores(d: Db, w: WorkStep, threshold: real, x: Id)
    requires CanWork(d, w) && x in d.txs && !d.txs[x].status.Categorized?
    requires w.CommitEnrichment? && w.claim.id == x && LedgerInv(d) && EnrichInv(d, threshold)
    ensures var d' := ApplyWork(d, w, threshold);
      x in d'.txs && HoldsResult(d.txs[x], d'.txs[x], w.result, w.score, w.at)
  {
    CommitRecords(d, w, threshold);
  }

  /** A user's correction leaves the score, and a worker's commit never meets a scored row. */
  lemma LedgerKeepsScore(d: Db, l: LedgerStep, x: Id, score: real)
    requires LedgerInv(d) && Allowed(d, l) && x in d.txs && Scored(d.txs[x], score)
    ensures var d' := ApplyLedger(d, l); (x in d'.txs && Scored(d'.txs[x], score)) || Gone(d', x)
  {
    if !(l.Recategorize? && l.tx == x) { LedgerKeepsCategory(d, l, x); }
  }

  lemma ScoreStands(cfg: Config, s: State, step: PipelineStep, x: Id, score: real)
    requires PipelineInv(cfg, s) && Can(cfg, s, step) && x in s.db.txs && Scored(s.db.txs[x], score)
    ensures var d' := Next(cfg, s, step).db; (x in d'.txs && Scored(d'.txs[x], score)) || Gone(d', x)
  {
    if step.OfLedger? {
      LedgerKeepsScore(s.db, step.ledger, x, score);
    } else {
      StepKeepsCategory(cfg, s, step, x);
    }
  }

  lemma {:induction false} ScoreStandsForever(cfg: Config, s: State, steps: seq<PipelineStep>, x: Id, score: real)
    requires PipelineInv(cfg, s) && Reaches(cfg, s, steps) && x in s.db.txs && Scored(s.db.txs[x], score)
    ensures var d' := Reached(cfg, s, steps).db; (x in d'.txs && Scored(d'.txs[x], score)) || Gone(d', x)
    decreases |steps|
  {
    if steps != [] {
      var s' := Next(cfg, s, steps[0]);
      StepOk(cfg, s, steps[0]);
      ScoreStands(cfg, s, steps[0], x, score);
      if x in s'.db.txs { ScoreStandsForever(cfg, s', steps[1..], x, score); }
      else { GoneForever(cfg, s', steps[1..], x); }
    }
  }

  // ---------------------------------------------------------------- what the enriching step fixes

  /** The row has the worker's result in every enrichment column. */
  predicate HasResult(tx: Tx, c: Classification, score: real, at: Instant) {
    && tx.category == Some(c.slug) && tx.source == (if c.fromLlm then Some(Llm) else Some(Rules))
    && tx.score == Some(score) && tx.status.Categorized? && tx.categorizedAt == Some(at)
  }

  lemma CategorizingStep(cfg: Config, s: State, step: PipelineStep, x: Id, c: Classification, score: real, at: Instant)
    requires PipelineInv(cfg, s) && Can(cfg, s, step) && Categorizes(s, step, x, c, score, at)
    ensures x in Next(cfg, s, step).db.txs && HasResult(Next(cfg, s, step).db.txs[x], c, score, at)
    ensures PipelineInv(cfg, Next(cfg, s, step))
  {
    WorkScores(s.db, step.work, cfg.anomaly, x);
    StepOk(cfg, s, step);
  }

  /** What the transaction shows later: the score in any case, the other columns until a user
      corrects them. */
  predicate Shows(d: Db, steps: seq<PipelineStep>, x: Id, c: Classification, score: real, at: Instant) {
    x in d.txs ==> Scored(d.txs[x], score) && (NeverCorrected(steps, x) ==> HasResult(d.txs[x], c, score, at))
  }

  lemma FromThenOn(cfg: Config, s: State, steps: seq<PipelineStep>, x: Id, c: Classification, score: real, at: Instant)
    requires PipelineInv(cfg, s) && Reaches(cfg, s, steps) && x in s.db.txs && HasResult(s.db.txs[x], c, score, at)
    ensures Shows(Reached(cfg, s, steps).db, steps, x, c, score, at)
  {
    ScoreStandsForever(cfg, s, steps, x, score);
    if NeverCorrected(steps, x) { CorrectionStands(cfg, s, steps, x); }
  }

  lemma ShownLater(d: Db, steps: seq<PipelineStep>, x: Id, c: Classification, score: real, at: Instant)
    requires steps != [] && Shows(d, steps[1..], x, c, score, at)
    ensures Shows(d, steps, x, c, score, at)
  {
    assert NeverCorrected(steps, x) ==> NeverCorrected(steps[1..], x);
  }

  /** What a worker's step stored for a transaction stays while the transaction does. */
  lemma {:induction false} ResultStands(cfg: Config, s: State, steps: seq<PipelineStep>, x: Id, c: Classification,
                                        score: real, at: Instant)
    requires PipelineInv(cfg, s) && Reaches(cfg, s, steps) && CategorizedDuring(cfg, s, steps, x, c, score, at)
    ensures Shows(Reached(cfg, s, steps).db, steps, x, c, score, at)
    decreases |steps|
  {
    var s' := Next(cfg, s, steps[0]);
    if Categorizes(s, steps[0], x, c, score, at) {
      CategorizingStep(cfg, s, steps[0], x, c, score, at);
      FromThenOn(cfg, s', steps[1..], x, c, score, at);
    } else {
      StepOk(cfg, s, steps[0]);
      ResultStands(cfg, s', steps[1..], x, c, score, at);
    }
    ShownLater(Reached(cfg, s, steps).db, steps, x, c, score, at);
  }

  // ---------------------------------------------------------------- no other step writes a score

  /** Rows of open sessions are not enriched. */
  predicate PlainAdds(d: Db) { forall sid, x | sid in d.sessions && x in d.sessions[sid].adds ::
    d.sessions[sid].adds[x].score.None? }

  predicate HasScore(d: Db, x: Id, score: real) { x in d.txs && d.txs[x].score == Some(score) }

  lemma LedgerAddsNoScore(d: Db, l: LedgerStep, x: Id, score: real)
    requires Allowed(d, l) && PlainAdds(d)
    ensures PlainAdds(ApplyLedger(d, l))
    ensures HasScore(ApplyLedger(d, l), x, score) ==> HasScore(d, x, score)
  {}

  lemma WorkAddsScore(d: Db, w: WorkStep, threshold: real, x: Id, score: real)
    requires CanWork(d, w) && LedgerInv(d) && EnrichInv(d, threshold)
    requires HasScore(ApplyWork(d, w, threshold), x, score) && !HasScore(d, x, score)
    ensures x in d.txs && !d.txs[x].status.Categorized? && w.CommitEnrichment? && w.claim.id == x && w.score == score
  {
    WorkLeavesLedger(d, w, threshold);
    if d.txs[x].status.Categorized? || !w.CommitEnrichment? || w.claim.id != x {
      WorkersRespectCategorized(d, w, threshold, x);
    } else {
      CommitRecords(d, w, threshold);
    }
  }

  lemma StepScores(cfg: Config, s: State, step: PipelineStep, x: Id, score: real)
    requires PipelineInv(cfg, s) && Can(cfg, s, step) && PlainAdds(s.db)
    ensures PlainAdds(Next(cfg, s, step).db)
    ensures HasScore(Next(cfg, s, step).db, x, score) && !HasScore(s.db, x, score) ==>
      step.OfWork? && step.work.CommitEnrichment? && Categorizes(s, step, x, step.work.result, score, step.work.at)
  {
    if step.OfLedger? { LedgerAddsNoScore(s.db, step.ledger, x, score); }
    if step.OfWork? {
      WorkLeavesLedger(s.db, step.work, cfg.anomaly);
      if HasScore(Next(cfg, s, step).db, x, score) && !HasScore(s.db, x, score) {
        WorkAddsScore(s.db, step.work, cfg.anomaly, x, score);
      }
    }
  }

  lemma {:induction false} NewScoreIsComputed(cfg: Config, s: State, steps: seq<PipelineStep>, x: Id, score: real)
    requires PipelineInv(cfg, s) && PlainAdds(s.db) && Reaches(cfg, s, steps)
    requires HasScore(Reached(cfg, s, steps).db, x, score) && !HasScore(s.db, x, score)
    ensures exists c, at :: CategorizedDuring(cfg, s, steps, x, c, score, at)
    decreases |steps|
  {
    if steps != [] {
      var s' := Next(cfg, s, steps[0]);
      StepScores(cfg, s, steps[0], x, score);
      if HasScore(s'.db, x, score) {
        var w := steps[0].work;
        assert CategorizedDuring(cfg, s, steps, x, w.result, score, w.at);
      } else {
        StepOk(cfg, s, steps[0]);
        NewScoreIsComputed(cfg, s', steps[1..], x, score);
        var c, at :| CategorizedDuring(cfg, s', steps[1..], x, c, score, at);
        assert CategorizedDuring(cfg, s, steps, x, c, score, at);
      }
    }
  }

  lemma ResultsStand(cfg: Config, s0: State, steps: seq<PipelineStep>, x: Id)
    requires Init(cfg, s0) && Reaches(cfg, s0, steps)
    ensures forall c, score, at | CategorizedDuring(cfg, s0, steps, x, c, score, at) ::
      Shows(Reached(cfg, s0, steps).db, steps, x, c, score, at)
  {
    InitHolds(cfg, s0);
    forall c, score, at | CategorizedDuring(cfg, s0, steps, x, c, score, at)
      ensures Shows(Reached(cfg, s0, steps).db, steps, x, c, score, at)
    {
      ResultStands(cfg, s0, steps, x, c, score, at);
    }
  }

  /** Over every run: a transaction has the score of the enrichment that categorized it, whatever
      happened since, and its category, source and time too unless a user corrected it; and a
      score that was not there at the start is that of such an enrichment. */
  lemma ScoresAreComputed(cfg: Config, s0: State, steps: seq<PipelineStep>, x: Id, score: real)
    requires Init(cfg, s0) && Reaches(cfg, s0, steps) && x in Reached(cfg, s0, steps).db.txs
    ensures var tx := Reached(cfg, s0, steps).db.txs[x];
      forall c, at | CategorizedDuring(cfg, s0, steps, x, c, score, at) ::
        && tx.score == Some(score) && tx.status.Categorized?
        && (NeverCorrected(steps, x) ==> HasResult(tx, c, score, at))
    ensures Reached(cfg, s0, steps).db.txs[x].score == Some(score) ==>
      || (x in s0.db.txs && s0.db.txs[x].score == Some(score))
      || exists c, at :: CategorizedDuring(cfg, s0, steps, x, c, score, at)
  {
    ResultsStand(cfg, s0, steps, x);
    InitHolds(cfg, s0);
    if HasScore(Reached(cfg, s0, steps).db, x, score) && !HasScore(s0.db, x, score) {
      NewScoreIsComputed(cfg, s0, steps, x, score);
    }
  }

  // ---------------------------------------------------------------- user corrections

  /** From a correction on, until the next one, the transaction has the category the user chose,
      as the user's, and no worker's. */
  lemma LatestCorrectionStands(cfg: Config, s: State, steps: seq<PipelineStep>, x: Id, slug: string, now: Instant)
    requires PipelineInv(cfg, s) && Reaches(cfg, s, steps)
    requires steps != [] && steps[0] == OfLedger(Recategorize(x, slug, now)) && NeverCorrected(steps[1..], x)
    ensures var d := Reached(cfg, s, steps).db;
      x in s.db.txs && (x in d.txs ==>
        d.txs[x].category == Some(slug) && d.txs[x].source == Some(User) && d.txs[x].status.Categorized?
        && d.txs[x].score == s.db.txs[x].score
        && d.txs[x].categorizedAt
           == if s.db.txs[x].categorizedAt.Some? then s.db.txs[x].categorizedAt else Some(now))
  {
    var s' := Next(cfg, s, steps[0]);
    StepOk(cfg, s, steps[0]);
    CorrectionStands(cfg, s', steps[1..], x);
  }

  // ---------------------------------------------------------------- the ledger columns

  /** The columns that ingestion writes and nothing rewrites. */
  predicate SameColumns(tx: Tx, tx': Tx) {
    && tx'.account == tx.account && tx'.extId == tx.extId && tx'.amount == tx.amount && tx'.currency == tx.currency
    && tx'.description == tx.description && tx'.occurredAt == tx.occurredAt
  }

  predicate IsAdd(step: PipelineStep, x: Id) { step.OfLedger? && step.ledger.Add? && step.ledger.id == x }

  /** The columns say what the ingested payload says; an empty currency is the account's. */
  predicate HasPayload(tx: Tx, account: Id, currency: string, p: Payload) {
    && tx.account == account && tx.extId == p.extId && tx.amount == p.amount
    && tx.currency == (if p.currency == "" then currency else p.currency)
    && tx.description == p.description && tx.occurredAt == p.occurredAt
  }

  /** The row of transaction `x`, committed or still in an open session. */
  predicate RowIs(d: Db, x: Id, tx: Tx) {
    || (x in d.txs && SameColumns(tx, d.txs[x]))
    || exists sid | sid in d.sessions :: x in d.sessions[sid].adds && SameColumns(tx, d.sessions[sid].adds[x])
  }

  lemma OpenRowStays(d: Db, l: LedgerStep, x: Id, tx: Tx, sid: Id)
    requires SessionsOk(d) && Allowed(d, l) && sid in d.sessions && x in d.sessions[sid].adds
    requires SameColumns(tx, d.sessions[sid].adds[x])
    ensures RowIs(ApplyLedger(d, l), x, tx) || Gone(ApplyLedger(d, l), x)
  {
    if (l.Commit? || l.Rollback?) && l.sid == sid {
      ClosedRowStays(d, l, x, tx);
    } else {
      var d' := ApplyLedger(d, l);
      assert sid in d'.sessions && x in d'.sessions[sid].adds;
    }
  }

  lemma ClosedRowStays(d: Db, l: LedgerStep, x: Id, tx: Tx)
    requires SessionsOk(d) && Allowed(d, l) && (l.Commit? || l.Rollback?) && x in d.sessions[l.sid].adds
    requires SameColumns(tx, d.sessions[l.sid].adds[x])
    ensures RowIs(ApplyLedger(d, l), x, tx) || Gone(ApplyLedger(d, l), x)
  {
    assert SessionOk(d, d.sessions[l.sid]);
    var d' := ApplyLedger(d, l);
    forall o | o in d'.sessions ensures x !in d'.sessions[o].adds {}
  }

  lemma LedgerKeepsColumns(d: Db, l: LedgerStep, x: Id, tx: Tx)
    requires LedgerInv(d) && Allowed(d, l) && RowIs(d, x, tx)
    ensures RowIs(ApplyLedger(d, l), x, tx) || Gone(ApplyLedger(d, l), x)
  {
    if x in d.txs && SameColumns(tx, d.txs[x]) {
      if !(l.Recategorize? && l.tx == x) { LedgerKeepsCategory(d, l, x); }
    } else {
      var sid :| sid in d.sessions && x in d.sessions[sid].adds && SameColumns(tx, d.sessions[sid].adds[x]);
      OpenRowStays(d, l, x, tx, sid);
    }
  }

  lemma WorkKeepsColumns(d: Db, w: WorkStep, threshold: real, x: Id, tx: Tx)
    requires LedgerInv(d) && EnrichInv(d, threshold) && CanWork(d, w) && RowIs(d, x, tx)
    ensures RowIs(ApplyWork(d, w, threshold), x, tx)
  {
    WorkLeavesLedger(d, w, threshold);
    if x in d.txs {
      if d.txs[x].status.Categorized? || !w.CommitEnrichment? || w.claim.id != x {
        WorkersRespectCategorized(d, w, threshold, x);
      } else {
        CommitRecords(d, w, threshold);
      }
    }
  }

  lemma StepKeepsColumns(cfg: Config, s: State, step: PipelineStep, x: Id, tx: Tx)
    requires LedgerInv(s.db) && EnrichInv(s.db, cfg.anomaly) && Can(cfg, s, step) && RowIs(s.db, x, tx)
    ensures RowIs(Next(cfg, s, step).db, x, tx) || Gone(Next(cfg, s, step).db, x)
  {
    NextDb(cfg, s, step);
    if step.OfLedger? {
      LedgerKeepsColumns(s.db, step.ledger, x, tx);
    } else if step.OfWork? {
      WorkKeepsColumns(s.db, step.work, cfg.anomaly, x, tx);
    }
  }

  lemma {:induction false} ColumnsStand(cfg: Config, s: State, steps: seq<PipelineStep>, x: Id, tx: Tx)
    requires PipelineInv(cfg, s) && Reaches(cfg, s, steps) && RowIs(s.db, x, tx)
    ensures RowIs(Reached(cfg, s, steps).db, x, tx) || Gone(Reached(cfg, s, steps).db, x)
    decreases |steps|
  {
    if steps != [] {
      var s' := Next(cfg, s, steps[0]);
      StepOk(cfg, s, steps[0]);
      StepKeepsColumns(cfg, s, steps[0], x, tx);
      if Gone(s'.db, x) { GoneForever(cfg, s', steps[1..], x); } else { ColumnsStand(cfg, s', steps[1..], x, tx); }
    }
  }

  /** A step of the run ingests `x` from this payload, in an open session on the account. */
  ghost predicate AddedDuring(cfg: Config, s: State, steps: seq<PipelineStep>, x: Id, account: Id, currency: string,
                              p: Payload)
    requires Reaches(cfg, s, steps)
    decreases |steps|
  {
    steps != []
    && ((IsAdd(steps[0], x) && steps[0].ledger.payload == p && steps[0].ledger.sid in s.db.sessions
         && s.db.sessions[steps[0].ledger.sid].account == account
         && account in s.db.accounts && s.db.accounts[account].currency == currency)
        || AddedDuring(cfg, Next(cfg, s, steps[0]), steps[1..], x, account, currency, p))
  }

  predicate Unknown(d: Db, x: Id) { x !in d.txs && forall sid | sid in d.sessions :: x !in d.sessions[sid].adds }

  lemma AddMakesRow(d: Db, l: LedgerStep, x: Id) returns (tx: Tx)
    requires Allowed(d, l) && Unknown(d, x) && !Unknown(ApplyLedger(d, l), x)
    ensures l.Add? && l.id == x && RowIs(ApplyLedger(d, l), x, tx)
    ensures var account := d.sessions[l.sid].account; HasPayload(tx, account, d.accounts[account].currency, l.payload)
  {
    tx := ApplyLedger(d, l).sessions[l.sid].adds[x];
  }

  lemma {:induction false} FirstAdded(cfg: Config, s: State, steps: seq<PipelineStep>, x: Id)
    returns (account: Id, currency: string, p: Payload)
    requires PipelineInv(cfg, s) && Reaches(cfg, s, steps) && Unknown(s.db, x) && x in Reached(cfg, s, steps).db.txs
    ensures AddedDuring(cfg, s, steps, x, account, currency, p)
    ensures HasPayload(Reached(cfg, s, steps).db.txs[x], account, currency, p)
    decreases |steps|
  {
    var s' := Next(cfg, s, steps[0]);
    StepOk(cfg, s, steps[0]);
    if Unknown(s'.db, x) {
      account, currency, p := FirstAdded(cfg, s', steps[1..], x);
    } else {
      if steps[0].OfWork? { WorkLeavesLedger(s.db, steps[0].work, cfg.anomaly); }
      var tx := AddMakesRow(s.db, steps[0].ledger, x);
      account, p := s.db.sessions[steps[0].ledger.sid].account, steps[0].ledger.payload;
      currency := s.db.accounts[account].currency;
      ColumnsStand(cfg, s', steps[1..], x, tx);
      StoredRowIs(cfg, s', steps[1..], x, tx);
    }
  }

  lemma StoredRowIs(cfg: Config, s: State, steps: seq<PipelineStep>, x: Id, tx: Tx)
    requires PipelineInv(cfg, s) && Reaches(cfg, s, steps) && x in Reached(cfg, s, steps).db.txs
    requires RowIs(Reached(cfg, s, steps).db, x, tx)
    ensures SameColumns(tx, Reached(cfg, s, steps).db.txs[x])
  {
    EveryRunKeepsInv(cfg, s, steps);
    var d := Reached(cfg, s, steps).db;
    forall sid | sid in d.sessions ensures x !in d.sessions[sid].adds { assert SessionOk(d, d.sessions[sid]); }
  }

  /** Over every run: account, external id, amount, currency, description and time of a
      transaction are those it had at the start, or those of the payload it was ingested from. */
  lemma LedgerColumnsAreIngested(cfg: Config, s0: State, steps: seq<PipelineStep>, x: Id)
    requires Init(cfg, s0) && Reaches(cfg, s0, steps) && x in Reached(cfg, s0, steps).db.txs
    ensures var tx := Reached(cfg, s0, steps).db.txs[x];
      if x in s0.db.txs then SameColumns(s0.db.txs[x], tx)
      else exists account, currency, p ::
        AddedDuring(cfg, s0, steps, x, account, currency, p) && HasPayload(tx, account, currency, p)
  {
    InitHolds(cfg, s0);
    if x in s0.db.txs {
      ColumnsStand(cfg, s0, steps, x, s0.db.txs[x]);
      StoredRowIs(cfg, s0, steps, x, s0.db.txs[x]);
    } else {
      var account, currency, p := FirstAdded(cfg, s0, steps, x);
    }
  }
}
