/** A run in which two consumers handle one record, and the first returns while an alert that the
    second stored is still undelivered. */
module TwoConsumers {
  import opened Common
  import opened Work
  import opened Leases
  import opened Store
  import opened Ledger
  import opened Enrichment
  import opened Consumers
  import opened Notifications
  import opened Pipeline
  import opened EndToEnd

  lemma {:induction false} RunExtends(cfg: Config, s: State, steps: seq<PipelineStep>, step: PipelineStep)
    requires Reaches(cfg, s, steps) && Can(cfg, Reached(cfg, s, steps), step)
    ensures Reaches(cfg, s, steps + [step])
    ensures Reached(cfg, s, steps + [step]) == Next(cfg, Reached(cfg, s, steps), step)
    decreases |steps|
  {
    if steps != [] {
      RunExtends(cfg, Next(cfg, s, steps[0]), steps[1..], step);
      assert (steps + [step])[1..] == steps[1..] + [step];
    } else {
      assert Reaches(cfg, Next(cfg, s, step), []) && [step][1..] == [];
    }
  }

  /** Large alerts from 100.00, budget alerts from 50.00 spent in a month. */
  function Cfg(): Config { Config(0.8, Thresholds(10_000, 5_000), _ => 0) }

  function Start0(): Db {
    Db(map[2 := Account(1, "Checking", None, "USD", 0)], map[], multiset{}, EMPTY, EMPTY, map[], map[], {})
  }

  function At(d: Db, log: Log, g: Group, notes: Notes, used: set<Id>): State {
    State(d, log, {}, g, notes, used, multiset{}, multiset{})
  }

  function Begun(): State { At(Start0(), map[], NO_GROUP, map[], {}) }

  ghost predicate Gets(steps: seq<PipelineStep>, s: State) {
    Reaches(Cfg(), Begun(), steps) && Reached(Cfg(), Begun(), steps) == s
  }

  lemma BegunIsInit()
    ensures Init(Cfg(), Begun())
  {}

  lemma Extended(steps: seq<PipelineStep>, s: State, step: PipelineStep, s': State) returns (steps': seq<PipelineStep>)
    requires Gets(steps, s) && Can(Cfg(), s, step) && Next(Cfg(), s, step) == s'
    ensures Gets(steps', s')
  {
    RunExtends(Cfg(), Begun(), steps, step);
    steps' := steps + [step];
  }

  lemma Invariant(steps: seq<PipelineStep>, s: State)
    requires Gets(steps, s)
    ensures LedgerInv(s.db) && EnrichInv(s.db, Cfg().anomaly)
  {
    BegunIsInit();
    InitHolds(Cfg(), Begun());
    EveryRunKeepsInv(Cfg(), Begun(), steps);
  }

  // ---------------------------------------------------------------- one transaction, ingested and enriched

  function Bought(): Payload { Payload("bank-1", -6_000, "USD", "DOORDASH*CHIPOTLE", 0) }

  function Dinner(): Tx { NewTx(2, "USD", Bought()) }

  function WithDinner(): Db {
    Db(map[2 := Account(1, "Checking", None, "USD", -6_000)], map[4 := Dinner()], multiset{Audit(Ingested, 4)},
       Queue(map[4 := NewJob(0)], map[4 := []], map[]), EMPTY, map[], map[], {4})
  }

  lemma IngestRun() returns (steps: seq<PipelineStep>)
    ensures Gets(steps, At(WithDinner(), map[], NO_GROUP, map[], {}))
  {
    var d0 := Start0();
    var d1 := d0.(sessions := map[3 := Session(2, 0, map[])]);
    var d2 := d0.(sessions := map[3 := Session(2, -6_000, map[4 := Dinner()])], used := {4});
    var step1, step2, step3 := Begin(3, 2), Add(3, 4, Bought()), LedgerStep.Commit(3, 0);
    assert ApplyLedger(d0, step1) == d1;
    assert d1.sessions[3].adds[4 := Dinner()] == map[4 := Dinner()];
    assert ApplyLedger(d1, step2) == d2;
    CommittedIs(d2);
    steps := Stepped([], d0, step1, d1);
    steps := Stepped(steps, d1, step2, d2);
    steps := Stepped(steps, d2, step3, WithDinner());
  }

  lemma CommittedIs(d2: Db)
    requires d2 == Start0().(sessions := map[3 := Session(2, -6_000, map[4 := Dinner()])], used := {4})
    ensures CommitSession(d2, 3, 0) == WithDinner()
  {
    var adds := map[4 := Dinner()];
    assert map[] + adds == adds && adds.Keys == {4};
    assert NewJobs(adds, 0) == map[4 := NewJob(0)];
    assert NoIssues(NewJobs(adds, 0)) == map[4 := []];
    assert (set x | x in {4} :: Audit(Ingested, x)) == {Audit(Ingested, 4)};
    assert CommitSession(d2, 3, 0).jobs.rows == map[4 := NewJob(0)];
    assert CommitSession(d2, 3, 0).jobs.issued == map[4 := []];
    assert CommitSession(d2, 3, 0).sessions == map[];
  }

  lemma Stepped(steps: seq<PipelineStep>, d: Db, step: LedgerStep, d': Db) returns (steps': seq<PipelineStep>)
    requires Gets(steps, At(d, map[], NO_GROUP, map[], {})) && Allowed(d, step) && ApplyLedger(d, step) == d'
    ensures Gets(steps', At(d', map[], NO_GROUP, map[], {}))
  {
    var s := At(d, map[], NO_GROUP, map[], {});
    assert Next(Cfg(), s, OfLedger(step)).notes == map[];
    steps' := Extended(steps, s, OfLedger(step), At(d', map[], NO_GROUP, map[], {}));
  }

  function Claimed(): Db {
    WithDinner().(jobs := Queue(map[4 := Row(0, 0, 1, 0, Some(LEASE), Some(10), None, None)],
                                map[4 := [Issue(10, 0, LEASE, false)]], map[10 := (4, 0)]))
  }

  lemma ClaimRun() returns (steps: seq<PipelineStep>)
    ensures Gets(steps, At(Claimed(), map[], NO_GROUP, map[], {}))
  {
    var d := WithDinner();
    var claim := ClaimJob(4, 0, LEASE, 10, {});
    steps := IngestRun();
    assert IsCandidate(d.jobs.rows, false, {}, 0, 4);
    var d' := ApplyWork(d, claim, Cfg().anomaly);
    assert d'.jobs.rows == Claimed().jobs.rows && d'.jobs.issued[4] == Claimed().jobs.issued[4];
    assert d'.jobs.issued == Claimed().jobs.issued && d'.jobs.tokens == Claimed().jobs.tokens;
    steps := Worked(steps, d, claim, Claimed());
  }

  lemma Worked(steps: seq<PipelineStep>, d: Db, w: WorkStep, d': Db) returns (steps': seq<PipelineStep>)
    requires Gets(steps, At(d, map[], NO_GROUP, map[], {})) && !w.CompleteEvent?
    requires CanWork(d, w) && ApplyWork(d, w, Cfg().anomaly) == d'
    ensures Gets(steps', At(d', map[], NO_GROUP, map[], {}))
  {
    steps' := Extended(steps, At(d, map[], NO_GROUP, map[], {}), OfWork(w), At(d', map[], NO_GROUP, map[], {}));
  }

  function Enriching(): WorkStep {
    CommitEnrichment(WorkClaim(4, 10, 1), 1, Classification("dining_coffee", false), 0.0, 1, [20, 21], [1, 1])
  }

  function Announced(): Event {
    TransactionCategorized(4, 2, 1, Some("dining_coffee"), Some(Rules), -6_000, "USD", Some(0.0), 0)
  }

  /** One categorized transaction whose only outbox row has been claimed for publication. */
  ghost predicate Published(d: Db) {
    && 4 in d.txs && d.events == map[20 := Announced()]
    && 20 in d.outbox.issued && |d.outbox.issued[20]| == 1 && d.outbox.issued[20][0].token == 11
  }

  lemma EnrichedIs(d: Db, tx: Tx, es: seq<Event>)
    requires 4 in Claimed().txs && 4 in Claimed().jobs.rows && Result(Claimed(), d, Enriching(), tx, es, Cfg().anomaly)
    ensures 4 in d.txs && d.events == map[20 := Announced()]
    ensures d.outbox == Queue(map[20 := NewOutboxRow(Announced(), 1)], map[20 := []], map[])
  {
    var w := Enriching();
    assert es == [Announced()];
    assert PayloadsOf(es, w) == map[20 := Announced()] && RowsOf(es, w) == map[20 := NewOutboxRow(Announced(), 1)];
    assert NoIssues(RowsOf(es, w)) == map[20 := []];
    assert d.outbox.rows == RowsOf(es, w) && d.outbox.issued == NoIssues(RowsOf(es, w));
  }

  lemma EnrichesClaimed()
    ensures Owns(Claimed().jobs.rows, Enriching().claim, Enriching().now) && CanWork(Claimed(), Enriching())
  {}

  lemma EnrichRun() returns (steps: seq<PipelineStep>, d: Db)
    ensures Gets(steps, At(d, map[], NO_GROUP, map[], {})) && 4 in d.txs && d.events == map[20 := Announced()]
    ensures d.outbox == Queue(map[20 := NewOutboxRow(Announced(), 1)], map[20 := []], map[])
  {
    steps := ClaimRun();
    Invariant(steps, At(Claimed(), map[], NO_GROUP, map[], {}));
    EnrichesClaimed();
    var tx, es := EnrichResult(Claimed(), Enriching(), Cfg().anomaly);
    d := ApplyWork(Claimed(), Enriching(), Cfg().anomaly);
    EnrichedIs(d, tx, es);
    steps := Worked(steps, Claimed(), Enriching(), d);
  }

  function Claiming(): WorkStep { ClaimEvent(20, 2, LEASE, 11, {}) }

  lemma PublicationClaimed(d: Db)
    requires 4 in d.txs && d.events == map[20 := Announced()]
    requires d.outbox == Queue(map[20 := NewOutboxRow(Announced(), 1)], map[20 := []], map[])
    ensures CanWork(d, Claiming()) && Published(ApplyWork(d, Claiming(), Cfg().anomaly))
  {
    assert IsCandidate(d.outbox.rows, true, {}, 2, 20);
    var d' := ApplyWork(d, Claiming(), Cfg().anomaly);
    assert d'.outbox.issued[20] == [] + [Issue(11, 2, 2 + LEASE, false)];
  }

  lemma PublishRun() returns (steps: seq<PipelineStep>, d: Db)
    ensures Published(d) && Gets(steps, At(d, map[], NO_GROUP, map[], {}))
  {
    var d1;
    steps, d1 := EnrichRun();
    PublicationClaimed(d1);
    d := ApplyWork(d1, Claiming(), Cfg().anomaly);
    steps := Worked(steps, d1, Claiming(), d);
  }

  // ---------------------------------------------------------------- one record, two consumers

  function TheLog(): Log { map[0 := [Decoded(20, Announced())]] }

  function Reader(gen: nat, hand: Option<Phase>, read: nat): Member {
    Member(1, gen, true, {0}, map[0 := read], if hand.Some? then Some(Inflight(0, 0, 1, hand.value)) else None)
  }

  function Alone(hand: Option<Phase>, read: nat): Group {
    Group(1, map[0 := 1], map[], map[1 := Reader(1, hand, read)], {}, {})
  }

  const NONE_SEEN: Phase := Running([], {}, false)

  function Both(second: Member, gen: nat, owner: Id): Group {
    Group(gen, map[0 := owner], map[], map[1 := Reader(1, Some(NONE_SEEN), 1), 2 := second], {}, {})
  }

  lemma Grouped(steps: seq<PipelineStep>, d: Db, g: Group, step: GroupStep, g': Group)
    returns (steps': seq<PipelineStep>)
    requires Gets(steps, At(d, TheLog(), g, map[], {})) && !step.Crash?
    requires CanGroup(TheLog(), g, step) && ApplyGroup(TheLog(), g, step) == g'
    ensures Gets(steps', At(d, TheLog(), g', map[], {}))
  {
    steps' := Extended(steps, At(d, TheLog(), g, map[], {}), OfGroup(step), At(d, TheLog(), g', map[], {}));
  }

  lemma Logged() returns (steps: seq<PipelineStep>, d: Db)
    ensures Published(d) && Gets(steps, At(d, TheLog(), NO_GROUP, map[], {}))
  {
    steps, d := PublishRun();
    var s := At(d, map[], NO_GROUP, map[], {});
    var publish := Publish(20, 11, false);
    assert WasIssued(d.outbox, 20, 11);
    assert Records(s.log, 0) == [] && [] + [Decoded(20, Announced())] == [Decoded(20, Announced())];
    steps := Extended(steps, s, publish, At(d, TheLog(), NO_GROUP, map[], {}));
  }

  lemma FirstHolds() returns (steps: seq<PipelineStep>, d: Db)
    ensures Published(d) && Gets(steps, At(d, TheLog(), Alone(Some(Ready), 1), map[], {}))
  {
    steps, d := Logged();
    var g1 := ApplyGroup(TheLog(), NO_GROUP, GroupStep.Start(1));
    var g2 := ApplyGroup(TheLog(), g1, Rebalance(map[0 := 1]));
    steps := Grouped(steps, d, NO_GROUP, GroupStep.Start(1), g1);
    steps := Grouped(steps, d, g1, Rebalance(map[0 := 1]), g2);
    AssignedFirst(g2);
    steps := Grouped(steps, d, g2, Assign(1), Alone(None, 0));
    DeliveredFirst();
    steps := Grouped(steps, d, Alone(None, 0), Deliver(1, 0), Alone(Some(Ready), 1));
  }

  lemma AssignedFirst(g2: Group)
    requires g2 == Group(1, map[0 := 1], map[], map[1 := Member(0, 0, false, {}, map[], None)], {}, {})
    ensures CanGroup(TheLog(), g2, Assign(1)) && ApplyGroup(TheLog(), g2, Assign(1)) == Alone(None, 0)
  {
    var g := ApplyGroup(TheLog(), g2, Assign(1));
    assert g.members[1] == Reader(1, None, 0);
    assert g.members == map[1 := Reader(1, None, 0)];
  }

  lemma DeliveredFirst()
    ensures CanGroup(TheLog(), Alone(None, 0), Deliver(1, 0))
    ensures ApplyGroup(TheLog(), Alone(None, 0), Deliver(1, 0)) == Alone(Some(Ready), 1)
  {
    var g := ApplyGroup(TheLog(), Alone(None, 0), Deliver(1, 0));
    assert map[0 := 0][0 := 1] == map[0 := 1];
    assert g.members[1] == Reader(1, Some(Ready), 1);
  }

  /** The first consumer finds nothing to alert about: no month's spend is known to it. */
  lemma FirstLooks() returns (steps: seq<PipelineStep>, d: Db)
    ensures Published(d) && Gets(steps, At(d, TheLog(), Alone(Some(NONE_SEEN), 1), map[], {}))
  {
    steps, d := FirstHolds();
    var s := At(d, TheLog(), Alone(Some(Ready), 1), map[], {});
    var look := StoreAlerts(None, 0, [], [], true);
    NothingStored(d, s, look);
    steps := Extended(steps, s, OfHandler(1, look), At(d, TheLog(), Alone(Some(NONE_SEEN), 1), map[], {}));
  }

  lemma NothingStored(d: Db, s: State, look: HandlerStep)
    requires Published(d) && s == At(d, TheLog(), Alone(Some(Ready), 1), map[], {})
             && look == StoreAlerts(None, 0, [], [], true)
    ensures CanHandle(Cfg(), s, 1, look)
    ensures ApplyHandler(Cfg(), s, 1, look) == At(d, TheLog(), Alone(Some(NONE_SEEN), 1), map[], {})
  {
    var e := EventAt(s, 1);
    assert e == Announced() && Alerts(Cfg(), e, look) == [];
    assert NotesAfter(Cfg(), s, e, look) == map[];
    assert (set n | n in look.todo) == {} && Pending(map[], 1, 4) == {} && Of(map[], 1, 4) == {};
    var s' := ApplyHandler(Cfg(), s, 1, look);
    assert s'.usedNotes == {} && s'.group.members == map[1 := Reader(1, Some(NONE_SEEN), 1)];
  }

  /** Then the partition moves to a second consumer, which is given the same record. */
  lemma SecondHolds() returns (steps: seq<PipelineStep>, d: Db)
    ensures Published(d) && Gets(steps, At(d, TheLog(), Both(Reader(2, Some(Ready), 1), 2, 2), map[], {}))
  {
    steps, d := FirstLooks();
    var fresh2 := Member(0, 1, false, {}, map[], None);
    assert map[1 := Reader(1, Some(NONE_SEEN), 1)][2 := fresh2] == map[1 := Reader(1, Some(NONE_SEEN), 1), 2 := fresh2];
    steps := Grouped(steps, d, Alone(Some(NONE_SEEN), 1), GroupStep.Start(2), Both(fresh2, 1, 1));
    steps := Grouped(steps, d, Both(fresh2, 1, 1), Rebalance(map[0 := 2]), Both(fresh2, 2, 2));
    AssignedSecond(fresh2);
    steps := Grouped(steps, d, Both(fresh2, 2, 2), Assign(2), Both(Reader(2, None, 0), 2, 2));
    DeliveredSecond();
    steps := Grouped(steps, d, Both(Reader(2, None, 0), 2, 2), Deliver(2, 0), Both(Reader(2, Some(Ready), 1), 2, 2));
  }

  lemma AssignedSecond(fresh2: Member)
    requires fresh2 == Member(0, 1, false, {}, map[], None)
    ensures CanGroup(TheLog(), Both(fresh2, 2, 2), Assign(2))
    ensures ApplyGroup(TheLog(), Both(fresh2, 2, 2), Assign(2)) == Both(Reader(2, None, 0), 2, 2)
  {
    var g, g' := ApplyGroup(TheLog(), Both(fresh2, 2, 2), Assign(2)), Both(Reader(2, None, 0), 2, 2);
    assert g.members[2] == Reader(2, None, 0);
    assert g.members == g'.members;
  }

  lemma DeliveredSecond()
    ensures CanGroup(TheLog(), Both(Reader(2, None, 0), 2, 2), Deliver(2, 0))
    ensures ApplyGroup(TheLog(), Both(Reader(2, None, 0), 2, 2), Deliver(2, 0)) == Both(Reader(2, Some(Ready), 1), 2, 2)
  {
    var g, g' := ApplyGroup(TheLog(), Both(Reader(2, None, 0), 2, 2), Deliver(2, 0)),
        Both(Reader(2, Some(Ready), 1), 2, 2);
    assert map[0 := 0][0 := 1] == map[0 := 1];
    assert g.members[2] == Reader(2, Some(Ready), 1);
    assert g.members == g'.members;
  }

  function Spent(): HandlerStep { StoreAlerts(Some(6_000), 0, [30], [30], true) }

  function Budget(): Alert { Alert(1, BudgetThreshold, 4, BudgetKey(1, "USD", "dining_coffee", 0)) }

  lemma BudgetRaised()
    ensures Alerts(Cfg(), Announced(), Spent()) == [Budget()]
  {}

  lemma StoredAlone(a: Alert, id: Id)
    ensures StoreAll(map[], [a], [id]) == map[id := Note(a, false)]
    ensures Pending(map[id := Note(a, false)], a.user, a.tx) == {id}
  {
    var alerts := [a];
    assert alerts[..0] == [] && StoreAll(map[], [], [id]) == map[];
  }

  lemma BudgetStored(d: Db, s: State) returns (s': State)
    requires Published(d) && s == At(d, TheLog(), Both(Reader(2, Some(Ready), 1), 2, 2), map[], {})
    ensures CanHandle(Cfg(), s, 2, Spent()) && s' == ApplyHandler(Cfg(), s, 2, Spent())
    ensures s'.log == TheLog() && s'.notes == map[30 := Note(Budget(), false)]
    ensures 1 in s'.group.members && s'.group.members[1] == s.group.members[1]
  {
    BudgetRaised();
    StoredAlone(Budget(), 30);
    assert EventAt(s, 2) == Announced();
    assert (set n | n in [30]) == {30};
    s' := ApplyHandler(Cfg(), s, 2, Spent());
  }

  /** The first consumer's handler returns while the second one's alert for the same user and
      transaction is stored and undelivered. */
  lemma FirstReturnsTooEarly() returns (steps: seq<PipelineStep>)
    ensures Init(Cfg(), Begun()) && Reaches(Cfg(), Begun(), steps)
    ensures var s := Reached(Cfg(), Begun(), steps);
      && Can(Cfg(), s, OfHandler(1, Return))
      && exists n :: n in Of(s.notes, EventAt(s, 1).user, EventAt(s, 1).tx) && !s.notes[n].delivered
  {
    var d;
    BegunIsInit();
    steps, d := SecondHolds();
    var s := At(d, TheLog(), Both(Reader(2, Some(Ready), 1), 2, 2), map[], {});
    var s' := BudgetStored(d, s);
    steps := Extended(steps, s, OfHandler(2, Spent()), s');
    assert EventAt(s', 1) == Announced() && Held(s'.group, 1).phase == NONE_SEEN;
    assert 30 in Of(s'.notes, 1, 4);
  }
}
