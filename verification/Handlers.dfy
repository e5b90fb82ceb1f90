/** The notification handler, statement by statement: store, commit, then send and mark one by one. */
module Handlers {
  import opened Common
  import opened Store
  import opened Consumers
  import opened Notifications
  import opened Pipeline

  /** How the first transaction ends, and how each delivery does. A failed commit may have
      taken effect all the same, and a failed send may have arrived. */
  datatype StoreFate = Committed | RolledBack | CommittedButRaised
  datatype Fate = Fine | SendRaised(arrived: bool) | MarkRaised(applied: bool)

  /** The first delivery of `n` that fails, or `n`. */
  function FirstFailure(fate: nat -> Fate, n: nat): (k: nat)
    ensures k <= n && (k < n ==> !fate(k).Fine?) && forall i | 0 <= i < k :: fate(i).Fine?
  {
    if n == 0 then 0
    else
      var k := FirstFailure(fate, n - 1);
      if k < n - 1 || !fate(k).Fine? then k else n
  }

  function MarkedBy(f: Fate): nat { if f.Fine? || (f.MarkRaised? && f.applied) then 1 else 0 }

  function SentBy(f: Fate): nat { if f.SendRaised? && !f.arrived then 0 else 1 }

  /** How many of `n` deliveries get marked, and how many get sent. */
  function Marks(fate: nat -> Fate, n: nat): nat {
    var k := FirstFailure(fate, n);
    if k < n then k + MarkedBy(fate(k)) else n
  }

  function Sends(fate: nat -> Fate, n: nat): nat {
    var k := FirstFailure(fate, n);
    if k < n then k + SentBy(fate(k)) else n
  }

  function MarkOne(notes: Notes, n: Id): Notes {
    if n in notes then notes[n := notes[n].(delivered := true)] else notes
  }

  function MarkAll(notes: Notes, ids: seq<Id>): Notes {
    if ids == [] then notes else MarkOne(MarkAll(notes, ids[..|ids| - 1]), ids[|ids| - 1])
  }

  function Ids(s: seq<Id>): set<Id> { set n | n in s }

  lemma OneMoreId(s: seq<Id>, n: Id)
    ensures Ids(s + [n]) == Ids(s) + {n}
  {}

  lemma OneMorePrefix(s: seq<Id>, k: nat)
    requires k < |s|
    ensures s[..k + 1][..k] == s[..k] && s[..k + 1] == s[..k] + [s[k]]
  {}

  lemma {:induction false} MarkAllMarks(notes: Notes, ids: seq<Id>)
    ensures MarkAll(notes, ids).Keys == notes.Keys
    ensures forall n | n in notes ::
      MarkAll(notes, ids)[n] == if n in ids then notes[n].(delivered := true) else notes[n]
    decreases |ids|
  {
    if ids != [] {
      MarkAllMarks(notes, ids[..|ids| - 1]);
      assert ids == ids[..|ids| - 1] + [ids[|ids| - 1]];
    }
  }

  class NotificationHandler {
    const thresholds: Thresholds
    var notes: Notes
    /** What the channel was given, in order. */
    var sent: seq<Id>

    constructor (thresholds: Thresholds, notes: Notes)
      ensures this.thresholds == thresholds && this.notes == notes && sent == []
    {
      this.thresholds, this.notes, sent := thresholds, notes, [];
    }

    method CreateIfNew(alert: Alert, id: Id) returns (created: bool)
      requires id !in notes
      modifies this`notes
      ensures created <==> !HasKey(old(notes), alert.key)
      ensures notes == if created then old(notes)[id := Note(alert, false)] else old(notes)
    {
      if HasKey(notes, alert.key) { return false; }
      notes := notes[id := Note(alert, false)];
      created := true;
    }

    method StoreAlerts(alerts: seq<Alert>, ids: seq<Id>)
      requires |alerts| <= |ids| && Distinct(ids) && (forall i | 0 <= i < |ids| :: ids[i] !in notes)
               && UniqueKeys(notes)
      modifies this`notes
      ensures notes == StoreAll(old(notes), alerts, ids)
    {
      for k := 0 to |alerts|
        invariant notes == StoreAll(old(notes), alerts[..k], ids)
      {
        StoreAllAdds(old(notes), alerts[..k], ids);
        assert ids[k] !in ids[..k];
        assert alerts[..k + 1][..k] == alerts[..k];
        var created := CreateIfNew(alerts[k], ids[k]);
      }
      assert alerts[..|alerts|] == alerts;
    }

    /** Sends one alert and marks it in a transaction of its own. */
    method DeliverOne(n: Id, fate: Fate) returns (ok: bool)
      modifies this
      ensures ok <==> fate.Fine?
      ensures sent == old(sent) + if fate.SendRaised? && !fate.arrived then [] else [n]
      ensures notes == if fate.Fine? || (fate.MarkRaised? && fate.applied) then MarkOne(old(notes), n) else old(notes)
    {
      if fate.SendRaised? {
        if fate.arrived { sent := sent + [n]; }
        return false;
      }
      sent := sent + [n];
      if fate.Fine? || fate.applied { notes := MarkOne(notes, n); }
      ok := fate.Fine?;
    }

    /** The rows of the pending query, in whatever order it returns them. */
    method ListPending(user: Id, tx: Id) returns (rows: seq<Id>)
      ensures Distinct(rows) && Ids(rows) == Pending(notes, user, tx)
    {
      var left := Pending(notes, user, tx);
      rows := [];
      while left != {}
        invariant left <= Pending(notes, user, tx) && Ids(rows) == Pending(notes, user, tx) - left && Distinct(rows)
        decreases |left|
      {
        SomeKey(left);
        var n :| n in left;
        assert n !in Ids(rows);
        OneMoreId(rows, n);
        rows := rows + [n];
        left := left - {n};
      }
    }

    /** Delivers one after another until a delivery fails. What was sent and what was marked
        differ by one at most. */
    method Deliver(deliveries: seq<Id>, fate: nat -> Fate) returns (ok: bool)
      modifies this
      ensures ok <==> FirstFailure(fate, |deliveries|) == |deliveries|
      ensures notes == MarkAll(old(notes), deliveries[..Marks(fate, |deliveries|)])
      ensures sent == old(sent) + deliveries[..Sends(fate, |deliveries|)]
    {
      for k := 0 to |deliveries|
        invariant notes == MarkAll(old(notes), deliveries[..k]) && sent == old(sent) + deliveries[..k]
        invariant forall i | 0 <= i < k :: fate(i).Fine?
      {
        OneMorePrefix(deliveries, k);
        ok := DeliverOne(deliveries[k], fate(k));
        if !ok {
          FailsFirstAt(fate, |deliveries|, k);
          return;
        }
      }
      AllFine(fate, |deliveries|);
      ok := true;
    }

    /** One call for one event. */
    method Handle(e: Event, spend: Option<int>, month: int, ids: seq<Id>, store: StoreFate, fate: nat -> Fate)
      returns (ok: bool, ghost order: seq<Id>)
      requires |Evaluate(e, thresholds, if e.TransactionCategorized? then spend else None, month)| <= |ids|
      requires Distinct(ids) && (forall i | 0 <= i < |ids| :: ids[i] !in notes) && UniqueKeys(notes)
      modifies this
      ensures var alerts := Evaluate(e, thresholds, if e.TransactionCategorized? then spend else None, month);
        var stored := if store.RolledBack? then old(notes) else StoreAll(old(notes), alerts, ids);
        if store.Committed? then
          && Distinct(order) && Ids(order) == Pending(stored, e.user, e.tx)
          && notes == MarkAll(stored, order[..Marks(fate, |order|)])
          && sent == old(sent) + order[..Sends(fate, |order|)]
          && (ok <==> FirstFailure(fate, |order|) == |order|)
        else !ok && notes == stored && sent == old(sent)
      ensures ok ==> Pending(notes, e.user, e.tx) == {}
    {
      var alerts := Evaluate(e, thresholds, if e.TransactionCategorized? then spend else None, month);
      ok, order := false, [];
      if store.RolledBack? { return; }
      StoreAlerts(alerts, ids);
      if store.CommittedButRaised? { return; }
      var deliveries := ListPending(e.user, e.tx);
      order := deliveries;
      ghost var stored := notes;
      ok := Deliver(deliveries, fate);
      if ok {
        assert order[..Marks(fate, |order|)] == order;
        ReturnLeavesNothingPending(stored, order, e.user, e.tx);
      }
    }
  }

  lemma FailsFirstAt(fate: nat -> Fate, n: nat, k: nat)
    requires k < n && !fate(k).Fine? && forall i | 0 <= i < k :: fate(i).Fine?
    ensures FirstFailure(fate, n) == k
  {}

  lemma AllFine(fate: nat -> Fate, n: nat)
    requires forall i | 0 <= i < n :: fate(i).Fine?
    ensures FirstFailure(fate, n) == n
  {}

  // ---------------------------------------------------------------- what a call amounts to

  /** A call that returns leaves no alert of its user and transaction undelivered, whether or
      not the rules fired this time. */
  lemma ReturnLeavesNothingPending(stored: Notes, order: seq<Id>, user: Id, tx: Id)
    requires Ids(order) == Pending(stored, user, tx)
    ensures Pending(MarkAll(stored, order), user, tx) == {}
  {
    var after := MarkAll(stored, order);
    MarkAllMarks(stored, order);
    forall n | n in after && after[n].alert.user == user && after[n].alert.tx == tx ensures after[n].delivered {
      assert n in Ids(order) || n !in Pending(stored, user, tx);
    }
    assert forall n :: n !in Pending(after, user, tx);
  }

  // ---------------------------------------------------------------- the same moves in the pipeline

  predicate Delivering(s: State, m: Id) {
    Handling(s, m) && Held(s.group, m).phase.Running? && !Held(s.group, m).phase.sent
  }

  function Todo(s: State, m: Id): seq<Id>
    requires Delivering(s, m)
  {
    Held(s.group, m).phase.todo
  }

  /** One send and one mark, as steps of the pipeline. */
  function DeliverNext(cfg: Config, s: State, m: Id): (r: State)
    requires Delivering(s, m) && Todo(s, m) != []
    ensures Delivering(r, m) && Todo(r, m) == Todo(s, m)[1..]
    ensures r.notes == MarkOne(s.notes, Todo(s, m)[0])
    ensures r.sends == s.sends + multiset{Todo(s, m)[0]} && r.fails == s.fails
  {
    ApplyHandler(cfg, ApplyHandler(cfg, s, m, Send), m, Mark(true))
  }

  function DeliverAll(cfg: Config, s: State, m: Id, j: nat): (r: State)
    requires Delivering(s, m) && j <= |Todo(s, m)|
    ensures Delivering(r, m) && Todo(r, m) == Todo(s, m)[j..]
  {
    if j == 0 then s else DeliverNext(cfg, DeliverAll(cfg, s, m, j - 1), m)
  }

  lemma NextSend(cfg: Config, b: State, m: Id, todo: seq<Id>, k: nat, before: multiset<Id>)
    requires Delivering(b, m) && k < |todo| && Todo(b, m) == todo[k..] && b.sends == before + multiset(todo[..k])
    ensures DeliverNext(cfg, b, m).sends == before + multiset(todo[..k + 1]) && DeliverNext(cfg, b, m).fails == b.fails
  {
    OneMorePrefix(todo, k);
  }

  lemma {:induction false} SendsMatch(cfg: Config, s: State, m: Id, j: nat)
    requires Delivering(s, m) && j <= |Todo(s, m)|
    ensures DeliverAll(cfg, s, m, j).sends == s.sends + multiset(Todo(s, m)[..j])
    ensures DeliverAll(cfg, s, m, j).fails == s.fails
    decreases j
  {
    if j > 0 {
      SendsMatch(cfg, s, m, j - 1);
      NextSend(cfg, DeliverAll(cfg, s, m, j - 1), m, Todo(s, m), j - 1, s.sends);
    }
  }

  lemma {:induction false} MarksMatch(cfg: Config, s: State, m: Id, j: nat)
    requires Delivering(s, m) && j <= |Todo(s, m)|
    ensures DeliverAll(cfg, s, m, j).notes == MarkAll(s.notes, Todo(s, m)[..j])
    decreases j
  {
    if j > 0 {
      MarksMatch(cfg, s, m, j - 1);
      OneMorePrefix(Todo(s, m), j - 1);
    }
  }

  /** A delivery that fails, as steps of the pipeline: it ends the handler run. */
  function FailNext(cfg: Config, s: State, m: Id, f: Fate): (r: State)
    requires Delivering(s, m) && Todo(s, m) != [] && !f.Fine?
    ensures r.notes == if MarkedBy(f) == 1 then MarkOne(s.notes, Todo(s, m)[0]) else s.notes
    ensures r.sends == s.sends + if SentBy(f) == 1 then multiset{Todo(s, m)[0]} else multiset{}
    ensures InPhase(r.group, m) && Held(r.group, m).phase.Ready?
  {
    match f
    case SendRaised(arrived) => ApplyHandler(cfg, if arrived then ApplyHandler(cfg, s, m, Send) else s, m, Fail)
    case MarkRaised(applied) =>
      var sent := ApplyHandler(cfg, s, m, Send);
      ApplyHandler(cfg, sent, m, if applied then Mark(false) else Fail)
  }

  /** A whole delivery loop as steps of the pipeline. */
  function LoopSteps(cfg: Config, s: State, m: Id, fate: nat -> Fate): State
    requires Delivering(s, m)
  {
    var n := |Todo(s, m)|;
    var k := FirstFailure(fate, n);
    if k < n then FailNext(cfg, DeliverAll(cfg, s, m, k), m, fate(k)) else DeliverAll(cfg, s, m, n)
  }

  /** The handler's loop and the pipeline's steps have the same effect, however the deliveries
      end: the same alerts marked, the same alerts sent. */
  lemma LoopMatchesSteps(cfg: Config, s: State, m: Id, fate: nat -> Fate)
    requires Delivering(s, m)
    ensures var todo := Todo(s, m); var s' := LoopSteps(cfg, s, m, fate);
      && s'.notes == MarkAll(s.notes, todo[..Marks(fate, |todo|)])
      && s'.sends == s.sends + multiset(todo[..Sends(fate, |todo|)])
  {
    var todo := Todo(s, m);
    var k := FirstFailure(fate, |todo|);
    MarksMatch(cfg, s, m, k);
    SendsMatch(cfg, s, m, k);
    if k < |todo| { OneMorePrefix(todo, k); }
  }
}
