/** The worker's two loops, one pass each: claim, work outside the database, commit or give back. */
module Workers {
  import opened Common
  import opened Work
  import opened Leases
  import opened Store
  import opened Enrichment
  import opened Consumers
  import opened Pipeline
  import opened Service

  /** How a publish ends, and how a database transaction does. A publish that fails may have
      reached the log, and a commit that raises may have taken effect. */
  datatype PublishFate = Acknowledged | Failed(landed: bool)
  datatype CommitFate = Commits | RollsBack | CommitsButRaises

  function Landing(fate: PublishFate): bool { fate.Acknowledged? || fate.landed }

  /** The claim as its worker sees it right after claiming. */
  function ClaimSeen(q: Queue, id: Id, token: Id): WorkClaim
    requires id in q.rows
  {
    WorkClaim(id, token, q.rows[id].attempts)
  }

  /** Completing, if the lease is still held, with the given end of the transaction. */
  ghost function Completed(d: Db, c: WorkClaim, now: Instant, at: Instant, commit: CommitFate, threshold: real): Db {
    if Owns(d.outbox.rows, c, now) && !commit.RollsBack? then ApplyWork(d, CompleteEvent(c, now, at), threshold) else d
  }

  ghost function GivenBack(d: Db, c: WorkClaim, at: Instant, error: string, threshold: real): Db {
    ApplyWork(d, RetryEvent(c, at, error), threshold)
  }

  /** The database after a publish was dealt with. */
  ghost function Settled(d: Db, c: WorkClaim, publish: PublishFate, later: Instant, at: Instant, commit: CommitFate,
                         error: string, threshold: real): Db
  {
    if publish.Acknowledged? && commit.Commits? then Completed(d, c, later, at, commit, threshold)
    else GivenBack(if publish.Acknowledged? then Completed(d, c, later, at, commit, threshold) else d, c, at, error,
        threshold)
  }

  /** The database after an enrichment was dealt with: committed under a lease still held, or
      not at all. */
  ghost function EnrichedOrBack(d: Db, c: WorkClaim, step: WorkStep, commit: CommitFate, error: string,
                                threshold: real): Db
    requires step.CommitEnrichment? && step.claim == c && (Owns(d.jobs.rows, c, step.now) ==> CanWork(d, step))
  {
    var enriched := if Owns(d.jobs.rows, c, step.now) && !commit.RollsBack? then ApplyWork(d, step, threshold) else d;
    if commit.Commits? then enriched else ApplyWork(enriched, RetryJob(c, step.at, error), threshold)
  }

  class TransactionWorkers {
    const service: TransactionsService
    const route: Id -> Id
    var log: Log
    var producerStarted: bool

    constructor (service: TransactionsService, route: Id -> Id, log: Log)
      ensures this.service == service && this.route == route && this.log == log && !producerStarted
    {
      this.service, this.route, this.log, producerStarted := service, route, log, false;
    }

    /** Whatever other transactions commit meanwhile. */
    method Meanwhile(others: Db -> Db)
      modifies service
      ensures service.State() == others(old(service.State()))
    {
      service.Become(others(service.State()));
    }

    method ClaimFrom(ordered: bool, q: Queue, now: Instant, lease: int, token: Id, skip: set<Id>)
      returns (c: Option<WorkClaim>, q': Queue)
      requires token !in q.tokens && q.rows.Keys <= q.issued.Keys
      ensures c.None? <==> forall id | id in q.rows :: !Claimable(q.rows, ordered, skip, now, id)
      ensures c.None? ==> q' == q
      ensures c.Some? ==> Enabled(ordered, q, Step.Claim(c.value.id, now, lease, token, skip))
                          && q' == Apply(ordered, q, Step.Claim(c.value.id, now, lease, token, skip))
                          && c.value == ClaimSeen(q', c.value.id, token)
    {
      var repo := new WorkRepository(ordered, q.rows);
      c := repo.Claim(now, lease, token, skip);
      if c.None? { return None, q; }
      var id := c.value.id;
      q' := Queue(repo.rows, q.issued[id := q.issued[id] + [Issue(token, now, now + lease, false)]],
                  q.tokens[token := (id, |q.issued[id]|)]);
    }

    method Retry(ordered: bool, q: Queue, c: WorkClaim, at: Instant, error: string) returns (q': Queue)
      ensures q' == Apply(ordered, q, Step.Retry(c, at, error))
    {
      var repo := new WorkRepository(ordered, q.rows);
      repo.Retry(c, at, error);
      q' := Queue(repo.rows,
                  if Retryable(q.rows, c)
                    && c.id in q.issued then q.issued[c.id := Released(q.issued[c.id])] else q.issued,
                  q.tokens);
    }

    /** Marks the row complete if the lease is still held. */
    method CompleteIfOwned(c: WorkClaim, now: Instant, at: Instant, commit: CommitFate)
      modifies service
      ensures service.State() == Completed(old(service.State()), c, now, at, commit, service.anomalyThreshold)
    {
      var repo := new WorkRepository(true, service.outbox.rows);
      var owns := repo.CheckOwns(c, now);
      if owns && !commit.RollsBack? {
        repo.Complete(c, at);
        service.SetOutbox(service.outbox.(rows := repo.rows));
      }
    }

    /** Claims the next outbox row in one transaction. */
    method ClaimNext(now: Instant, lease: int, token: Id, skip: set<Id>) returns (c: Option<WorkClaim>)
      requires token !in service.outbox.tokens && service.outbox.rows.Keys <= service.outbox.issued.Keys
      modifies service
      ensures c.None?
              <==> forall id | id in old(service.outbox).rows ::
                !Claimable(old(service.outbox).rows, true, skip, now, id)
      ensures c.None? ==> service.State() == old(service.State())
      ensures c.Some? ==>
        && c.value.id in old(service.outbox).rows
        && CanWork(old(service.State()), ClaimEvent(c.value.id, now, lease, token, skip))
        && service.State()
          == ApplyWork(old(service.State()), ClaimEvent(c.value.id, now, lease, token, skip), service.anomalyThreshold)
    {
      var q;
      c, q := ClaimFrom(true, service.outbox, now, lease, token, skip);
      if c.Some? { service.SetOutbox(q); }
    }

    /** What follows a publish: complete the row, or give the claim back. */
    method Settle(c: WorkClaim, publish: PublishFate, later: Instant, at: Instant, commit: CommitFate, error: string)
      modifies this`producerStarted, service
      ensures service.State()
              == Settled(old(service.State()), c, publish, later, at, commit, error, service.anomalyThreshold)
      ensures producerStarted <==> publish.Acknowledged? && commit.Commits?
    {
      producerStarted := true;
      if publish.Acknowledged? {
        CompleteIfOwned(c, later, at, commit);
        if commit.Commits? { return; }
      }
      producerStarted := false;
      var back := Retry(true, service.outbox, c, at, error);
      service.SetOutbox(back);
    }

    /** One pass of the publishing loop: the claimed row's own event goes to its key's partition,
        and the row is completed only behind an acknowledgement. */
    method PublishOnce(now: Instant, lease: int, token: Id, skip: set<Id>, others: Db -> Db, publish: PublishFate,
                       later: Instant, at: Instant, commit: CommitFate, error: string) returns (c: Option<WorkClaim>)
      requires token !in service.outbox.tokens && service.outbox.rows.Keys <= service.outbox.issued.Keys
      requires service.outbox.rows.Keys <= service.events.Keys
      modifies this, service
      ensures c.None?
              <==> forall id | id in old(service.outbox).rows ::
                !Claimable(old(service.outbox).rows, true, skip, now, id)
      ensures c.None? ==> service.State() == old(service.State()) && log == old(log)
      ensures c.Some? ==>
        c.value.id in old(service.events)
          && log == Published(old(log), old(service.events)[c.value.id], c.value.id, publish)
      ensures c.Some? ==>
        && CanWork(old(service.State()), ClaimEvent(c.value.id, now, lease, token, skip))
        && service.State()
          == Settled(others(ApplyWork(old(service.State()), ClaimEvent(c.value.id, now, lease, token, skip),
              service.anomalyThreshold)),
                                      c.value, publish, later, at, commit, error, service.anomalyThreshold)
    {
      c := ClaimNext(now, lease, token, skip);
      if c.None? { return; }
      var event := service.events[c.value.id];
      Meanwhile(others);
      log := Published(log, event, c.value.id, publish);
      Settle(c.value, publish, later, at, commit, error);
    }

    /** Claims the next categorization job in one transaction. */
    method ClaimJobNext(now: Instant, lease: int, token: Id, skip: set<Id>) returns (c: Option<WorkClaim>)
      requires token !in service.jobs.tokens && service.jobs.rows.Keys <= service.jobs.issued.Keys
      modifies service
      ensures c.None?
              <==> forall id | id in old(service.jobs).rows :: !Claimable(old(service.jobs).rows, false, skip, now, id)
      ensures c.None? ==> service.State() == old(service.State())
      ensures c.Some? ==>
        && CanWork(old(service.State()), ClaimJob(c.value.id, now, lease, token, skip))
        && service.State()
          == ApplyWork(old(service.State()), ClaimJob(c.value.id, now, lease, token, skip), service.anomalyThreshold)
    {
      var q;
      c, q := ClaimFrom(false, service.jobs, now, lease, token, skip);
      if c.Some? { service.SetJobs(q); }
    }

    /** What follows a classification: enrich, write the events and finish the job in one
        transaction, or leave the job to be tried again. */
    method Enrich(c: WorkClaim, result: Classification, score: real, later: Instant, at: Instant, ids: seq<Id>,
                  stamps: seq<Instant>, commit: CommitFate, error: string)
      requires |ids| == 2 && |stamps| == 2 && ids[0] != ids[1] && ids[0] !in service.events && ids[1] !in service.events
      modifies service
      ensures service.State()
              == EnrichedOrBack(old(service.State()), c, CommitEnrichment(c, later, result, score, at, ids, stamps),
                                                commit, error, service.anomalyThreshold)
    {
      if !commit.RollsBack? {
        var owned := service.CommitEnrichment(c, later, result, score, at, ids, stamps);
        if commit.Commits? { return; }
      }
      var back := Retry(false, service.jobs, c, at, error);
      service.SetJobs(back);
    }

    /** One pass of the categorization loop. A provider failure falls back to the rules. */
    method CategorizeOnce(now: Instant, lease: int, token: Id, skip: set<Id>, others: Db -> Db,
                          provider: Option<Classification>, rules: Classification, score: real, later: Instant,
                              at: Instant,
                          ids: seq<Id>, stamps: seq<Instant>, commit: CommitFate,
                              error: string) returns (c: Option<WorkClaim>)
      requires token !in service.jobs.tokens && service.jobs.rows.Keys <= service.jobs.issued.Keys
      requires |ids| == 2 && |stamps| == 2 && ids[0] != ids[1]
      requires ids[0] !in service.events && ids[1] !in service.events
      requires forall d: Db, i | 0 <= i < 2 && ids[i] !in d.events :: ids[i] !in others(d).events
      modifies service
      ensures c.None?
              <==> forall id | id in old(service.jobs).rows :: !Claimable(old(service.jobs).rows, false, skip, now, id)
      ensures c.None? ==> service.State() == old(service.State())
      ensures c.Some? ==>
        && CanWork(old(service.State()), ClaimJob(c.value.id, now, lease, token, skip))
        && var claimed := ApplyWork(old(service.State()), ClaimJob(c.value.id, now, lease, token, skip),
            service.anomalyThreshold);
           service.State() ==
           if c.value.id !in old(service.txs) then claimed
           else EnrichedOrBack(others(claimed), c.value,
                               CommitEnrichment(c.value, later, if provider.Some? then provider.value else rules, score,
                                   at, ids, stamps),
                               commit, error, service.anomalyThreshold)
    {
      c := ClaimJobNext(now, lease, token, skip);
      if c.None? { return; }
      if c.value.id !in service.txs { return; }
      Meanwhile(others);
      var result := if provider.Some? then provider.value else rules;
      Enrich(c.value, result, score, later, at, ids, stamps, commit, error);
    }

    function Published(log: Log, e: Event, id: Id, publish: PublishFate): Log {
      if Landing(publish) then Append(log, route(e.account), Decoded(id, e)) else log
    }
  }

  /** A completion whose commit raised is not undone by giving the claim back. */
  lemma CompletionSurvivesRetry(d: Db, c: WorkClaim, now: Instant, at: Instant, error: string, threshold: real)
    requires Owns(d.outbox.rows, c, now)
    ensures var done := Completed(d, c, now, at, CommitsButRaises, threshold);
      GivenBack(done, c, at, error, threshold) == done
  {}

  /** A pass completes the row it claimed only behind an acknowledged publish and while its own
      claim was the row's current one. */
  lemma CompletedMeansAcknowledged(d: Db, c: WorkClaim, publish: PublishFate, later: Instant, at: Instant,
                                commit: CommitFate,
                                   error: string, threshold: real)
    requires c.id in d.outbox.rows && d.outbox.rows[c.id].completedAt.None?
    ensures var rows := Settled(d, c, publish, later, at, commit, error, threshold).outbox.rows;
      c.id in rows &&
      (rows[c.id].completedAt.Some? <==> publish.Acknowledged? && !commit.RollsBack? && Owns(d.outbox.rows, c, later))
  {}

  /** What a pass leaves of the row it claimed: finished behind an acknowledgement that was committed
      under a held lease; as it was when the lease was lost by then; and else given back with its
      pause, if it is still this claim's. */
  lemma PassLeaves(d: Db, c: WorkClaim, publish: PublishFate, later: Instant, at: Instant, commit: CommitFate,
                   error: string, threshold: real)
    requires c.id in d.outbox.rows
    ensures var (was, rows) := (d.outbox.rows, Settled(d, c, publish, later, at, commit, error, threshold).outbox.rows);
      && rows.Keys == was.Keys && (forall o | o in rows && o != c.id :: rows[o] == was[o])
      && var row := rows[c.id];
         if publish.Acknowledged? && !commit.RollsBack? && Owns(was, c, later) then row.completedAt == Some(at)
         else if (publish.Acknowledged? && commit.Commits?) || !Retryable(was, c) then row == was[c.id]
         else row.completedAt.None? && row.lockToken.None? && row.availableAt == at + Pause(c.attempts) * SECOND
  {
    var was := d.outbox.rows;
    SettledRows(d, c, publish, later, at, commit, error, threshold);
    if Retryable(was, c) { RetryGivesBack(was, c, at, error); }
    if Owns(was, c, later) { CompleteFinishes(was, c, at); }
  }

  /** The outbox rows a pass leaves, as the two statements make them. */
  lemma SettledRows(d: Db, c: WorkClaim, publish: PublishFate, later: Instant, at: Instant, commit: CommitFate,
                    error: string, threshold: real)
    ensures var was := d.outbox.rows;
      Settled(d, c, publish, later, at, commit, error, threshold).outbox.rows
      == if publish.Acknowledged? && !commit.RollsBack? && Owns(was, c, later) then CompleteRow(was, c, at)
         else if publish.Acknowledged? && commit.Commits? then was else RetryRow(was, c, at, error)
  {}

  /** The same for a job: finished with the commit that enriches under a held lease, as it was when
      that commit found the lease lost, and else given back. */
  lemma JobPassLeaves(d: Db, c: WorkClaim, step: WorkStep, commit: CommitFate, error: string, threshold: real)
    requires step.CommitEnrichment? && step.claim == c && c.id in d.jobs.rows
             && (Owns(d.jobs.rows, c, step.now) ==> CanWork(d, step))
    ensures var (was, rows) := (d.jobs.rows, EnrichedOrBack(d, c, step, commit, error, threshold).jobs.rows);
      && rows.Keys == was.Keys && (forall o | o in rows && o != c.id :: rows[o] == was[o])
      && var row := rows[c.id];
         if !commit.RollsBack? && Owns(was, c, step.now) then row.completedAt == Some(step.at)
         else if commit.Commits? || !Retryable(was, c) then row == was[c.id]
         else row.completedAt.None? && row.lockToken.None? && row.availableAt == step.at + Pause(c.attempts) * SECOND
  {
    var was := d.jobs.rows;
    SettledJobs(d, c, step, commit, error, threshold);
    if Retryable(was, c) { RetryGivesBack(was, c, step.at, error); }
    if Owns(was, c, step.now) { CompleteFinishes(was, c, step.at); }
  }

  lemma EnrichingLeavesJobs(d: Db, c: WorkClaim, result: Classification, score: real, at: Instant, ids: seq<Id>,
                            stamps: seq<Instant>, threshold: real)
    requires |ids| == 2 && |stamps| == 2
    ensures EnrichTx(d, c, result, score, at, ids, stamps, threshold).jobs == d.jobs
  {}

  lemma CommittedJobs(d: Db, step: WorkStep, threshold: real)
    requires step.CommitEnrichment? && CanWork(d, step)
    ensures ApplyWork(d, step, threshold).jobs.rows == CompleteRow(d.jobs.rows, step.claim, step.at)
  {
    EnrichingLeavesJobs(d, step.claim, step.result, step.score, step.at, step.ids, step.stamps, threshold);
  }

  lemma RetriedJobs(d: Db, c: WorkClaim, at: Instant, error: string, threshold: real)
    ensures ApplyWork(d, RetryJob(c, at, error), threshold).jobs.rows == RetryRow(d.jobs.rows, c, at, error)
  {}

  /** The job rows a pass leaves, as the two statements make them. */
  lemma SettledJobs(d: Db, c: WorkClaim, step: WorkStep, commit: CommitFate, error: string, threshold: real)
    requires step.CommitEnrichment? && step.claim == c && (Owns(d.jobs.rows, c, step.now) ==> CanWork(d, step))
    ensures var was := d.jobs.rows;
      EnrichedOrBack(d, c, step, commit, error, threshold).jobs.rows
      == if !commit.RollsBack? && Owns(was, c, step.now) then CompleteRow(was, c, step.at)
         else if commit.Commits? then was else RetryRow(was, c, step.at, error)
  {
    var enriched := d;
    if Owns(d.jobs.rows, c, step.now) && !commit.RollsBack? {
      enriched := ApplyWork(d, step, threshold);
      CommittedJobs(d, step, threshold);
    }
    RetriedJobs(enriched, c, step.at, error, threshold);
  }
}
