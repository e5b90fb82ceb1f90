/** Delivery accounting: what a handler that returns has delivered, and how often alerts are sent. */
module Delivery {
  import opened Common
  import opened Consumers
  import opened Notifications
  import opened Pipeline
  import opened PipelineSteps
  import opened EndToEnd

  predicate IsRunning(s: State, m: Id) { InPhase(s.group, m) && Held(s.group, m).phase.Running? }

  function RunOf(s: State, m: Id): Phase
    requires IsRunning(s, m)
  {
    Held(s.group, m).phase
  }

  /** A running handler still has to deliver every alert it saw stored and undelivered. */
  predicate RunOk(notes: Notes, used: set<Id>, run: Phase) {
    run.Running? && Distinct(run.todo) && (run.sent ==> run.todo != [])
    && (forall n | n in run.todo :: n in run.seen) && run.seen <= used
    && (forall n | n in run.seen && n in notes :: notes[n].delivered || n in run.todo)
  }

  ghost predicate DeliveryInv(s: State) {
    && s.notes.Keys <= s.usedNotes
    && (forall n | n in s.sends || n in s.fails :: n in s.usedNotes)
    && (forall m | IsRunning(s, m) :: RunOk(s.notes, s.usedNotes, RunOf(s, m)))
  }

  lemma StoredRunOk(cfg: Config, s: State, m: Id, h: HandlerStep)
    requires NotesOk(cfg, s.db.txs, s.notes, s.usedNotes) && CanHandle(cfg, s, m, h) && h.StoreAlerts? && h.ok
    ensures var s' := ApplyHandler(cfg, s, m, h); IsRunning(s', m) && RunOk(s'.notes, s'.usedNotes, RunOf(s', m))
    ensures var s' := ApplyHandler(cfg, s, m, h); s'.notes.Keys <= s'.usedNotes
  {
    StoreAdds(cfg, s, m, h);
    var s', e := ApplyHandler(cfg, s, m, h), EventAt(s, m);
    forall n ensures n in h.todo <==> n in Pending(s'.notes, e.user, e.tx) {
      assert n in (set x | x in h.todo) <==> n in h.todo;
    }
  }

  lemma RunSurvives(notes: Notes, notes': Notes, used: set<Id>, used': set<Id>, run: Phase)
    requires RunOk(notes, used, run) && used <= used'
    requires forall n | n in notes' && n in used :: n in notes && (notes[n].delivered ==> notes'[n].delivered)
    ensures RunOk(notes', used', run)
  {}

  lemma HandlerKeepsDelivery(cfg: Config, s: State, m: Id, h: HandlerStep)
    requires NotesOk(cfg, s.db.txs, s.notes, s.usedNotes) && DeliveryInv(s) && CanHandle(cfg, s, m, h)
    ensures DeliveryInv(ApplyHandler(cfg, s, m, h))
  {
    var s' := ApplyHandler(cfg, s, m, h);
    if h.StoreAlerts? { StoreAdds(cfg, s, m, h); }
    if h.StoreAlerts? && h.ok { StoredRunOk(cfg, s, m, h); }
    CountsAreStored(cfg, s, m, h);
    forall o | IsRunning(s', o) ensures RunOk(s'.notes, s'.usedNotes, RunOf(s', o)) {
      if o != m {
        assert IsRunning(s, o) && RunOf(s, o) == RunOf(s', o);
        RunSurvives(s.notes, s'.notes, s.usedNotes, s'.usedNotes, RunOf(s, o));
      } else if !h.StoreAlerts? {
        OwnRunContinues(cfg, s, m, h);
      }
    }
  }

  lemma CountsAreStored(cfg: Config, s: State, m: Id, h: HandlerStep)
    requires DeliveryInv(s) && CanHandle(cfg, s, m, h)
    ensures var s' := ApplyHandler(cfg, s, m, h); forall n | n in s'.sends || n in s'.fails :: n in s'.usedNotes
  {
    if IsRunning(s, m) && RunOf(s, m).todo != [] {
      var run := RunOf(s, m);
      assert RunOk(s.notes, s.usedNotes, run);
      var n := run.todo[0];
      assert n in run.todo;
      assert n in run.seen;
      assert n in s.usedNotes;
    }
  }

  lemma OwnRunContinues(cfg: Config, s: State, m: Id, h: HandlerStep)
    requires CanHandle(cfg, s, m, h) && !h.StoreAlerts? && IsRunning(ApplyHandler(cfg, s, m, h), m)
    requires IsRunning(s, m) ==> RunOk(s.notes, s.usedNotes, RunOf(s, m))
    ensures var s' := ApplyHandler(cfg, s, m, h); RunOk(s'.notes, s'.usedNotes, RunOf(s', m))
  {}

  /** Outside the handler nobody starts a handler run or changes one. */
  lemma RunUntouched(log: Log, g: Group, step: GroupStep, o: Id)
    requires CanGroup(log, g, step)
    requires var g' := ApplyGroup(log, g, step); InPhase(g', o) && Held(g', o).phase.Running?
    ensures InPhase(g, o) && Held(g, o) == Held(ApplyGroup(log, g, step), o)
  {}

  lemma GroupKeepsDelivery(cfg: Config, s: State, step: PipelineStep)
    requires step.OfGroup? && DeliveryInv(s) && Can(cfg, s, step)
    ensures DeliveryInv(Next(cfg, s, step))
  {
    var s' := Next(cfg, s, step);
    forall o | IsRunning(s', o) ensures RunOk(s'.notes, s'.usedNotes, RunOf(s', o)) {
      RunUntouched(s.log, s.group, step.group, o);
      assert IsRunning(s, o);
    }
    if step.group.Crash? && IsRunning(s, step.group.m) { assert RunOk(s.notes, s.usedNotes, RunOf(s, step.group.m)); }
  }

  lemma StepKeepsDelivery(cfg: Config, s: State, step: PipelineStep)
    requires NotesOk(cfg, s.db.txs, s.notes, s.usedNotes) && DeliveryInv(s) && Can(cfg, s, step)
    ensures DeliveryInv(Next(cfg, s, step))
  {
    var s' := Next(cfg, s, step);
    match step
    case OfHandler(m, h) => HandlerKeepsDelivery(cfg, s, m, h);
    case OfGroup(g) => GroupKeepsDelivery(cfg, s, step);
    case _ => OthersKeepDelivery(s, s');
  }

  lemma OthersKeepDelivery(s: State, s': State)
    requires DeliveryInv(s) && s'.group == s.group && s'.usedNotes == s.usedNotes && s'.sends == s.sends
             && s'.fails == s.fails
    requires forall n | n in s'.notes :: n in s.notes && s'.notes[n] == s.notes[n]
    ensures DeliveryInv(s')
  {
    forall n | n in s'.notes ensures n in s'.usedNotes {}
    forall o | IsRunning(s', o) ensures RunOk(s'.notes, s'.usedNotes, RunOf(s', o)) {
      assert IsRunning(s, o) && RunOk(s.notes, s.usedNotes, RunOf(s, o));
      RunSurvives(s.notes, s'.notes, s.usedNotes, s'.usedNotes, RunOf(s, o));
    }
  }

  lemma {:induction false} RunsKeepDelivery(cfg: Config, s: State, steps: seq<PipelineStep>)
    requires PipelineInv(cfg, s) && DeliveryInv(s) && Reaches(cfg, s, steps)
    ensures PipelineInv(cfg, Reached(cfg, s, steps)) && DeliveryInv(Reached(cfg, s, steps))
    decreases |steps|
  {
    if steps != [] {
      StepOk(cfg, s, steps[0]);
      StepKeepsDelivery(cfg, s, steps[0]);
      RunsKeepDelivery(cfg, Next(cfg, s, steps[0]), steps[1..]);
    }
  }

  lemma RunKeepsDelivery(cfg: Config, s0: State, steps: seq<PipelineStep>)
    requires Init(cfg, s0) && Reaches(cfg, s0, steps)
    ensures DeliveryInv(Reached(cfg, s0, steps))
  {
    InitHolds(cfg, s0);
    RunsKeepDelivery(cfg, s0, steps);
  }

  /** The alerts of a handler's user and transaction that were stored after its own look. */
  ghost predicate LatecomersDelivered(s: State, m: Id)
    requires IsRunning(s, m) && Handling(s, m)
  {
    forall n | n in Of(s.notes, EventAt(s, m).user, EventAt(s, m).tx) && n !in RunOf(s, m).seen :: s.notes[n].delivered
  }

  /** However many consumers run: a handler that can return has every alert it found stored for
      its user and transaction marked delivered, and nothing was ever sent that was not stored.
      All alerts of the user and transaction are delivered exactly when those are that others
      stored since the handler looked. */
  lemma ReturnMeansDelivered(cfg: Config, s0: State, steps: seq<PipelineStep>, m: Id)
    requires Init(cfg, s0) && Reaches(cfg, s0, steps) && Can(cfg, Reached(cfg, s0, steps), OfHandler(m, Return))
    ensures var s := Reached(cfg, s0, steps);
      && (forall n | n in RunOf(s, m).seen && n in s.notes :: s.notes[n].delivered)
      && (forall n | n in s.sends :: n in s.usedNotes)
    ensures var s := Reached(cfg, s0, steps);
      (forall n | n in Of(s.notes, EventAt(s, m).user, EventAt(s, m).tx) :: s.notes[n].delivered)
        <==> LatecomersDelivered(s, m)
  {
    RunKeepsDelivery(cfg, s0, steps);
    var s := Reached(cfg, s0, steps);
    assert RunOk(s.notes, s.usedNotes, RunOf(s, m));
  }

  // ---------------------------------------------------------------- one consumer at a time

  /** At most one member has a record in its hands. */
  ghost predicate Serial(s: State) {
    forall a, b | InPhase(s.group, a) && InPhase(s.group, b) :: a == b
  }

  predicate SendingNow(run: Phase, n: Id) { run.Running? && run.sent && run.todo != [] && run.todo[0] == n }

  /** Sends of an alert against its failed deliveries, while `run` is the only handler run:
      equal while the alert waits, one more while it is sent but not marked, and never more. */
  ghost predicate SendsWith(notes: Notes, sends: multiset<Id>, fails: multiset<Id>, run: Phase) {
    && (forall n :: sends[n] <= fails[n] + 1)
    && (forall n | n in notes && !notes[n].delivered && !SendingNow(run, n) :: sends[n] == fails[n])
    && (run.Running? ==> forall k | 0 <= k < |run.todo| ::
          sends[run.todo[k]] == fails[run.todo[k]] + if k == 0 && run.sent then 1 else 0)
  }

  ghost predicate SendsOk(s: State) {
    && (forall m | InPhase(s.group, m) :: SendsWith(s.notes, s.sends, s.fails, Held(s.group, m).phase))
    && ((forall m :: !InPhase(s.group, m)) ==> SendsWith(s.notes, s.sends, s.fails, Ready))
  }

  lemma SendCounts(notes: Notes, sends: multiset<Id>, fails: multiset<Id>, run: Phase)
    requires SendsWith(notes, sends, fails, run) && run.Running? && !run.sent && run.todo != [] && Distinct(run.todo)
    ensures SendsWith(notes, sends + multiset{run.todo[0]}, fails, Running(run.todo, run.seen, true))
  {}

  lemma MarkCounts(notes: Notes, sends: multiset<Id>, fails: multiset<Id>, run: Phase, ok: bool)
    requires SendsWith(notes, sends, fails, run) && run.Running? && run.sent && run.todo != [] && Distinct(run.todo)
    ensures var n := run.todo[0];
      SendsWith(if n in notes then notes[n := notes[n].(delivered := true)] else notes, sends,
                if ok then fails else fails + multiset{n},
                if ok then Running(run.todo[1..], run.seen, false) else Ready)
  {
    var n := run.todo[0];
    if ok {
      forall k | 0 <= k < |run.todo| - 1 ensures run.todo[1..][k] == run.todo[k + 1] {}
    }
  }

  /** A handler run that ends without marking, by an error or a crash, counts as one failure. */
  lemma FailCounts(notes: Notes, sends: multiset<Id>, fails: multiset<Id>, run: Phase)
    requires SendsWith(notes, sends, fails, run)
    ensures SendsWith(notes, sends, fails + SentButUnmarked(run), Ready)
  {}

  /** New alerts start unsent; the run's list is the alerts still waiting. */
  lemma StoreCounts(notes: Notes, notes': Notes, sends: multiset<Id>, fails: multiset<Id>, todo: seq<Id>, seen: set<Id>)
    requires SendsWith(notes, sends, fails, Ready)
    requires notes.Keys <= notes'.Keys && (forall n | n in notes :: notes'[n] == notes[n])
    requires forall n | n in notes' && n !in notes :: sends[n] == 0 && fails[n] == 0
    requires forall k | 0 <= k < |todo| :: todo[k] in notes' && !notes'[todo[k]].delivered
    ensures SendsWith(notes', sends, fails, Running(todo, seen, false)) && SendsWith(notes', sends, fails, Ready)
  {
    forall n | n in notes' && !notes'[n].delivered ensures sends[n] == fails[n] {
      if n in notes { assert !SendingNow(Ready, n); }
    }
    forall k | 0 <= k < |todo| ensures sends[todo[k]] == fails[todo[k]] {
      var n := todo[k];
      assert n in notes' && !notes'[n].delivered;
    }
  }

  lemma IdleCounts(notes: Notes, sends: multiset<Id>, fails: multiset<Id>, run: Phase)
    requires SendsWith(notes, sends, fails, run) && !run.Running?
    ensures SendsWith(notes, sends, fails, Ready)
  {
    forall n | n in notes && !notes[n].delivered ensures sends[n] == fails[n] { assert !SendingNow(run, n); }
  }

  lemma FewerNotesCount(notes: Notes, notes': Notes, sends: multiset<Id>, fails: multiset<Id>, run: Phase)
    requires SendsWith(notes, sends, fails, run) && forall n | n in notes' :: n in notes && notes'[n] == notes[n]
    ensures SendsWith(notes', sends, fails, run)
  {}

  /** Handling changes only the record of `m`, and `m` is alone. */
  lemma Alone(cfg: Config, s: State, m: Id, h: HandlerStep)
    requires Serial(s) && CanHandle(cfg, s, m, h)
    ensures var g' := ApplyHandler(cfg, s, m, h).group;
      InPhase(g', m) && forall o | InPhase(g', o) :: o == m
  {
    forall o | InPhase(ApplyHandler(cfg, s, m, h).group, o) ensures o == m {
      if o != m { assert InPhase(s.group, o); }
    }
  }

  lemma StorePending(cfg: Config, s: State, m: Id, h: HandlerStep)
    requires NotesOk(cfg, s.db.txs, s.notes, s.usedNotes) && DeliveryInv(s) && CanHandle(cfg, s, m, h) && h.StoreAlerts?
    ensures var notes := NotesAfter(cfg, s, EventAt(s, m), h);
      && s.notes.Keys <= notes.Keys && (forall n | n in s.notes :: notes[n] == s.notes[n])
      && (forall n | n in notes && n !in s.notes :: s.sends[n] == 0 && s.fails[n] == 0)
      && (forall k | 0 <= k < |h.todo| :: h.todo[k] in notes && !notes[h.todo[k]].delivered)
  {
    StoreAdds(cfg, s, m, h);
    forall k | 0 <= k < |h.todo|
      ensures h.todo[k] in Pending(NotesAfter(cfg, s, EventAt(s, m), h), EventAt(s, m).user, EventAt(s, m).tx)
    {
      assert h.todo[k] in (set x | x in h.todo);
    }
  }

  lemma HandlerKeepsSends(cfg: Config, s: State, m: Id, h: HandlerStep)
    requires NotesOk(cfg, s.db.txs, s.notes, s.usedNotes) && DeliveryInv(s) && SendsOk(s) && Serial(s)
             && CanHandle(cfg, s, m, h)
    ensures SendsOk(ApplyHandler(cfg, s, m, h))
  {
    var run := Held(s.group, m).phase;
    Alone(cfg, s, m, h);
    assert SendsWith(s.notes, s.sends, s.fails, run);
    if IsRunning(s, m) { assert RunOk(s.notes, s.usedNotes, RunOf(s, m)); }
    match h
    case StoreAlerts(_, _, _, todo, _) =>
      StorePending(cfg, s, m, h);
      var notes := NotesAfter(cfg, s, EventAt(s, m), h);
      StoreCounts(s.notes, notes, s.sends, s.fails, todo, Of(notes, EventAt(s, m).user, EventAt(s, m).tx));
    case Send => SendCounts(s.notes, s.sends, s.fails, run);
    case Mark(ok) => MarkCounts(s.notes, s.sends, s.fails, run, ok);
    case Fail => FailCounts(s.notes, s.sends, s.fails, run);
    case Return =>
  }

  lemma GroupKeepsSends(cfg: Config, s: State, step: PipelineStep)
    requires step.OfGroup? && SendsOk(s) && Serial(s) && Can(cfg, s, step) && Serial(Next(cfg, s, step))
    ensures SendsOk(Next(cfg, s, step))
  {
    var g := step.group;
    if g.Crash? && InPhase(s.group, g.m) {
      CrashClears(s.log, s.group, g.m);
      FailCounts(s.notes, s.sends, s.fails, Held(s.group, g.m).phase);
    } else if g.Deliver? {
      DeliverIsFirst(s, g);
    } else {
      PhasesAfterGroupStep(s, g);
    }
  }

  lemma CrashClears(log: Log, g: Group, m: Id)
    requires InPhase(g, m) && forall a, b | InPhase(g, a) && InPhase(g, b) :: a == b
    ensures forall o :: !InPhase(ApplyGroup(log, g, Crash(m)), o)
  {
    var g' := ApplyGroup(log, g, Crash(m));
    forall o ensures !InPhase(g', o) { assert InPhase(g', o) ==> InPhase(g, o) && o != m; }
  }

  /** In a serial run a record is only delivered when nobody holds one. */
  lemma DeliverIsFirst(s: State, g: GroupStep)
    requires g.Deliver? && CanGroup(s.log, s.group, g) && SendsOk(s)
    requires forall a, b | InPhase(ApplyGroup(s.log, s.group, g), a) && InPhase(ApplyGroup(s.log, s.group, g), b) ::
      a == b
    ensures SendsWith(s.notes, s.sends, s.fails, Ready)
    ensures forall o | InPhase(ApplyGroup(s.log, s.group, g), o) :: o == g.m
  {
    var g' := ApplyGroup(s.log, s.group, g);
    assert InPhase(g', g.m);
    forall o ensures !InPhase(s.group, o) {
      if o != g.m { assert InPhase(s.group, o) ==> InPhase(g', o); }
    }
  }

  /** Outside crashes and deliveries a group step neither starts nor ends a handler run. */
  lemma PhasesAfterGroupStep(s: State, g: GroupStep)
    requires CanGroup(s.log, s.group, g) && !(g.Crash? && InPhase(s.group, g.m)) && !g.Deliver? && SendsOk(s)
    ensures var g' := ApplyGroup(s.log, s.group, g);
      && (forall o | InPhase(g', o) :: SendsWith(s.notes, s.sends, s.fails, Held(g', o).phase))
      && ((forall o :: !InPhase(g', o)) ==> SendsWith(s.notes, s.sends, s.fails, Ready))
  {
    var g' := ApplyGroup(s.log, s.group, g);
    forall o | InPhase(g', o) ensures SendsWith(s.notes, s.sends, s.fails, Held(g', o).phase) {
      assert InPhase(s.group, o);
      assert SendsWith(s.notes, s.sends, s.fails, Held(s.group, o).phase);
    }
    if forall o :: !InPhase(g', o) {
      if o :| InPhase(s.group, o) {
        assert !InPhase(g', o);
        IdleCounts(s.notes, s.sends, s.fails, Held(s.group, o).phase);
      }
    }
  }

  lemma StepKeepsSends(cfg: Config, s: State, step: PipelineStep)
    requires NotesOk(cfg, s.db.txs, s.notes, s.usedNotes) && DeliveryInv(s) && SendsOk(s)
    requires Can(cfg, s, step) && Serial(s) && Serial(Next(cfg, s, step))
    ensures SendsOk(Next(cfg, s, step))
  {
    match step
    case OfHandler(m, h) => HandlerKeepsSends(cfg, s, m, h);
    case OfGroup(_) => GroupKeepsSends(cfg, s, step);
    case _ => OthersKeepSends(s, Next(cfg, s, step));
  }

  lemma OthersKeepSends(s: State, s': State)
    requires SendsOk(s) && s'.group == s.group && s'.sends == s.sends && s'.fails == s.fails
    requires forall n | n in s'.notes :: n in s.notes && s'.notes[n] == s.notes[n]
    ensures SendsOk(s')
  {
    forall m | InPhase(s'.group, m) ensures SendsWith(s'.notes, s'.sends, s'.fails, Held(s'.group, m).phase) {
      FewerNotesCount(s.notes, s'.notes, s.sends, s.fails, Held(s.group, m).phase);
    }
    if forall m :: !InPhase(s'.group, m) { FewerNotesCount(s.notes, s'.notes, s.sends, s.fails, Ready); }
  }

  // ---------------------------------------------------------------- serial runs

  /** A running handler has every undelivered alert of its user and transaction on its list. */
  ghost predicate PendingListed(s: State) {
    forall m | IsRunning(s, m) && Handling(s, m) ::
      forall n | n in Pending(s.notes, EventAt(s, m).user, EventAt(s, m).tx) :: n in RunOf(s, m).todo
  }

  lemma StepKeepsListed(cfg: Config, s: State, step: PipelineStep)
    requires NotesOk(cfg, s.db.txs, s.notes, s.usedNotes) && DeliveryInv(s) && PendingListed(s)
             && GroupInv(s.log, s.group)
    requires Can(cfg, s, step) && Serial(s) && Serial(Next(cfg, s, step))
    ensures PendingListed(Next(cfg, s, step))
  {
    var s' := Next(cfg, s, step);
    match step
    case OfHandler(m, h) => HandlerKeepsListed(cfg, s, m, h);
    case _ =>
      forall m | IsRunning(s', m) && Handling(s', m)
        ensures forall n | n in Pending(s'.notes, EventAt(s', m).user, EventAt(s', m).tx) :: n in RunOf(s', m).todo
      {
        SameRecord(cfg, s, step, m);
      }
  }

  /** Nothing but its own handler touches a run or the record it is about. */
  lemma SameRecord(cfg: Config, s: State, step: PipelineStep, m: Id)
    requires GroupInv(s.log, s.group) && Can(cfg, s, step) && !step.OfHandler?
    requires IsRunning(Next(cfg, s, step), m) && Handling(Next(cfg, s, step), m)
    ensures IsRunning(s, m) && Handling(s, m) && RunOf(s, m) == RunOf(Next(cfg, s, step), m)
    ensures EventAt(s, m) == EventAt(Next(cfg, s, step), m)
  {
    var s' := Next(cfg, s, step);
    if step.OfGroup? { SameHeld(s, step.group, m); }
    assert MemberOk(s.log, s.group, m, s.group.members[m]);
    SameMessage(cfg, s, step, Held(s.group, m).part, Held(s.group, m).offset);
  }

  lemma SameHeld(s: State, g: GroupStep, m: Id)
    requires CanGroup(s.log, s.group, g) && InPhase(ApplyGroup(s.log, s.group, g), m)
    requires Held(ApplyGroup(s.log, s.group, g), m).phase.Running?
    ensures InPhase(s.group, m) && Held(ApplyGroup(s.log, s.group, g), m) == Held(s.group, m)
  {}

  lemma SameMessage(cfg: Config, s: State, step: PipelineStep, p: Id, i: nat)
    requires Can(cfg, s, step) && i < |Records(s.log, p)|
    ensures var log' := Next(cfg, s, step).log; i < |Records(log', p)| && Records(log', p)[i] == Records(s.log, p)[i]
  {
    match step
    case Publish(id, _, _) => AppendGrows(s.log, cfg.route(s.db.events[id].account), Decoded(id, s.db.events[id]));
    case Foreign(q, message) => AppendGrows(s.log, q, message);
    case _ =>
  }

  lemma HandlerKeepsListed(cfg: Config, s: State, m: Id, h: HandlerStep)
    requires DeliveryInv(s) && PendingListed(s) && CanHandle(cfg, s, m, h) && Serial(s)
    ensures PendingListed(ApplyHandler(cfg, s, m, h))
  {
    var s' := ApplyHandler(cfg, s, m, h);
    Alone(cfg, s, m, h);
    forall o | IsRunning(s', o) && Handling(s', o)
      ensures forall n | n in Pending(s'.notes, EventAt(s', o).user, EventAt(s', o).tx) :: n in RunOf(s', o).todo
    {
      assert o == m && EventAt(s', m) == EventAt(s, m);
      OwnList(cfg, s, m, h);
    }
  }

  lemma OwnList(cfg: Config, s: State, m: Id, h: HandlerStep)
    requires CanHandle(cfg, s, m, h) && IsRunning(ApplyHandler(cfg, s, m, h), m)
    requires IsRunning(s, m) ==> RunOk(s.notes, s.usedNotes, RunOf(s, m))
    requires IsRunning(s, m) ==>
      forall n | n in Pending(s.notes, EventAt(s, m).user, EventAt(s, m).tx) :: n in RunOf(s, m).todo
    ensures var s', e := ApplyHandler(cfg, s, m, h), EventAt(s, m);
      forall n | n in Pending(s'.notes, e.user, e.tx) :: n in RunOf(s', m).todo
  {
    var s', e := ApplyHandler(cfg, s, m, h), EventAt(s, m);
    forall n | n in Pending(s'.notes, e.user, e.tx) ensures n in RunOf(s', m).todo {
      if h.StoreAlerts? {
        assert n in (set x | x in h.todo);
      } else {
        assert n in Pending(s.notes, e.user, e.tx);
        if h.Mark? {
          var todo := RunOf(s, m).todo;
          var k :| 0 <= k < |todo| && todo[k] == n;
          assert todo[1..][k - 1] == n;
        }
      }
    }
  }

  ghost predicate SerialRun(cfg: Config, s: State, steps: seq<PipelineStep>)
    requires Reaches(cfg, s, steps)
    decreases |steps|
  {
    Serial(s) && (steps != [] ==> SerialRun(cfg, Next(cfg, s, steps[0]), steps[1..]))
  }

  lemma SerialStep(cfg: Config, s: State, step: PipelineStep)
    requires PipelineInv(cfg, s) && DeliveryInv(s) && SendsOk(s) && PendingListed(s)
    requires Can(cfg, s, step) && Serial(s) && Serial(Next(cfg, s, step))
    ensures DeliveryInv(Next(cfg, s, step)) && SendsOk(Next(cfg, s, step)) && PendingListed(Next(cfg, s, step))
  {
    StepKeepsDelivery(cfg, s, step);
    StepKeepsSends(cfg, s, step);
    StepKeepsListed(cfg, s, step);
  }

  lemma {:induction false} SerialRunsKeep(cfg: Config, s: State, steps: seq<PipelineStep>)
    requires PipelineInv(cfg, s) && DeliveryInv(s) && SendsOk(s) && PendingListed(s)
    requires Reaches(cfg, s, steps) && SerialRun(cfg, s, steps)
    ensures DeliveryInv(Reached(cfg, s, steps)) && SendsOk(Reached(cfg, s, steps))
            && PendingListed(Reached(cfg, s, steps))
    decreases |steps|
  {
    if steps != [] {
      var s' := Next(cfg, s, steps[0]);
      StepOk(cfg, s, steps[0]);
      assert SerialRun(cfg, s', steps[1..]);
      SerialStep(cfg, s, steps[0]);
      SerialRunsKeep(cfg, s', steps[1..]);
    }
  }

  /** With one consumer, an alert is sent at most once more than deliveries of it failed between
      sending and marking, whatever the rules say on replay. */
  lemma SendsAreAccounted(cfg: Config, s0: State, steps: seq<PipelineStep>, n: Id)
    requires Init(cfg, s0) && Reaches(cfg, s0, steps) && SerialRun(cfg, s0, steps)
    ensures var s := Reached(cfg, s0, steps); s.sends[n] <= s.fails[n] + 1
  {
    InitHolds(cfg, s0);
    SerialRunsKeep(cfg, s0, steps);
    var s := Reached(cfg, s0, steps);
    if m :| InPhase(s.group, m) { assert SendsWith(s.notes, s.sends, s.fails, Held(s.group, m).phase); }
  }

  lemma SerialRunsList(cfg: Config, s0: State, steps: seq<PipelineStep>)
    requires Init(cfg, s0) && Reaches(cfg, s0, steps) && SerialRun(cfg, s0, steps)
    ensures PendingListed(Reached(cfg, s0, steps))
  {
    InitHolds(cfg, s0);
    SerialRunsKeep(cfg, s0, steps);
  }

  /** With one consumer, a handler returns only when every stored alert of its user and
      transaction is marked delivered. */
  lemma SerialReturnMeansAllDelivered(cfg: Config, s0: State, steps: seq<PipelineStep>, m: Id)
    requires Init(cfg, s0) && Reaches(cfg, s0, steps) && SerialRun(cfg, s0, steps)
    requires Can(cfg, Reached(cfg, s0, steps), OfHandler(m, Return))
    ensures var s := Reached(cfg, s0, steps);
      forall n | n in Of(s.notes, EventAt(s, m).user, EventAt(s, m).tx) :: s.notes[n].delivered
  {
    SerialRunsList(cfg, s0, steps);
    var s := Reached(cfg, s0, steps);
    forall n | n in Of(s.notes, EventAt(s, m).user, EventAt(s, m).tx) ensures s.notes[n].delivered {
      assert IsRunning(s, m) && n !in RunOf(s, m).todo;
    }
  }
}
