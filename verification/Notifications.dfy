/** Alert rules, stored alerts and their delivery. */
module Notifications {
  import opened Common
  import opened Store

  datatype Kind = LargeTransaction | AnomalyFlagged | BudgetThreshold

  /** Deduplication keys. The three textual prefixes keep the forms apart. */
  datatype Key =
    | LargeKey(tx: Id)
    | AnomalyKey(tx: Id)
    | BudgetKey(user: Id, currency: string, category: string, month: int)

  datatype Alert = Alert(user: Id, kind: Kind, tx: Id, key: Key)

  datatype Thresholds = Thresholds(large: int, budget: int)

  /** All alerts raised by one event; `month` is the calendar month it occurred in. */
  function Evaluate(e: Event, th: Thresholds, spend: Option<int>, month: int): seq<Alert> {
    match e
    case TransactionAnomalyFlagged(tx, _, user, _, _, _) => [Alert(user, AnomalyFlagged, tx, AnomalyKey(tx))]
    case TransactionCategorized(tx, _, user, category, _, amount, currency, _, _) =>
      (if amount < 0 && -amount >= th.large then [Alert(user, LargeTransaction, tx, LargeKey(tx))] else [])
      + if spend.Some? && category.Some? && category.value != "" && spend.value >= th.budget
        then [Alert(user, BudgetThreshold, tx, BudgetKey(user, currency, category.value, month))] else []
  }

  datatype Note = Note(alert: Alert, delivered: bool)

  type Notes = map<Id, Note>

  predicate HasKey(notes: Notes, key: Key) { exists n | n in notes :: notes[n].alert.key == key }

  /** `create_if_new` for each alert in turn. */
  function StoreAll(notes: Notes, alerts: seq<Alert>, ids: seq<Id>): Notes
    requires |alerts| <= |ids|
  {
    if alerts == [] then notes
    else
      var n := |alerts| - 1;
      var before := StoreAll(notes, alerts[..n], ids);
      if HasKey(before, alerts[n].key) then before else before[ids[n] := Note(alerts[n], false)]
  }

  function Pending(notes: Notes, user: Id, tx: Id): set<Id> {
    set n | n in notes && notes[n].alert.user == user && notes[n].alert.tx == tx && !notes[n].delivered
  }

  function Of(notes: Notes, user: Id, tx: Id): set<Id> {
    set n | n in notes && notes[n].alert.user == user && notes[n].alert.tx == tx
  }

  predicate UniqueKeys(notes: Notes) {
    forall a, b | a in notes && b in notes && notes[a].alert.key == notes[b].alert.key :: a == b
  }

  /** What must be stored once an event was handled. */
  predicate Stored(notes: Notes, e: Event, th: Thresholds) {
    match e
    case TransactionAnomalyFlagged(tx, _, _, _, _, _) => HasKey(notes, AnomalyKey(tx))
    case TransactionCategorized(tx, _, _, _, _, amount, _, _, _) =>
      amount < 0 && -amount >= th.large ==> HasKey(notes, LargeKey(tx))
  }

  /** What one call of the rules can put in store. */
  predicate AddsAlerts(notes: Notes, notes': Notes, alerts: seq<Alert>, ids: seq<Id>) {
    && notes.Keys <= notes'.Keys && (forall n | n in notes :: notes'[n] == notes[n])
    && (forall n | n in notes' && n !in notes :: n in ids && notes'[n].alert in alerts && !notes'[n].delivered)
    && (forall a | a in alerts :: HasKey(notes', a.key))
  }

  lemma StoreOneAdds(notes: Notes, before: Notes, alerts: seq<Alert>, ids: seq<Id>, a: Alert, id: Id)
    requires AddsAlerts(notes, before, alerts, ids) && UniqueKeys(before) && id !in before
    ensures var after := if HasKey(before, a.key) then before else before[id := Note(a, false)];
      AddsAlerts(notes, after, alerts + [a], ids + [id]) && UniqueKeys(after)
  {
    var after := if HasKey(before, a.key) then before else before[id := Note(a, false)];
    forall b | b in alerts + [a] ensures HasKey(after, b.key) {
      if b in alerts {
        var w :| w in before && before[w].alert.key == b.key;
        assert w in after && after[w] == before[w];
      } else if !HasKey(before, a.key) {
        assert id in after;
      }
    }
  }

  lemma {:induction false} StoreAllAdds(notes: Notes, alerts: seq<Alert>, ids: seq<Id>)
    requires |alerts| <= |ids| && Distinct(ids) && (forall i | 0 <= i < |ids| :: ids[i] !in notes) && UniqueKeys(notes)
    ensures AddsAlerts(notes, StoreAll(notes, alerts, ids), alerts, ids[..|alerts|])
    ensures UniqueKeys(StoreAll(notes, alerts, ids))
    decreases |alerts|
  {
    if alerts != [] {
      var n := |alerts| - 1;
      StoreAllAdds(notes, alerts[..n], ids);
      assert ids[n] !in ids[..n];
      StoreOneAdds(notes, StoreAll(notes, alerts[..n], ids), alerts[..n], ids[..n], alerts[n], ids[n]);
      assert ids[..|alerts|] == ids[..n] + [ids[n]];
      assert alerts == alerts[..n] + [alerts[n]];
    }
  }

  /** Whatever the spend, the expected alerts of an event end up in store. */
  lemma EvaluateStores(notes: Notes, notes': Notes, e: Event, th: Thresholds, spend: Option<int>, month: int,
                       ids: seq<Id>)
    requires AddsAlerts(notes, notes', Evaluate(e, th, spend, month), ids)
    ensures Stored(notes', e, th)
  {
    var alerts := Evaluate(e, th, spend, month);
    if e.TransactionAnomalyFlagged? {
      assert alerts[0] in alerts;
    } else if e.amount < 0 && -e.amount >= th.large {
      assert alerts[0] in alerts;
    }
  }

  /** What an event calls for under `key`: the large alert for an outflow at or above its limit,
      the budget alert of the month when the spend is known and at or above its limit, the anomaly
      alert for a flagged event. */
  predicate CallsFor(e: Event, th: Thresholds, spend: Option<int>, month: int, key: Key) {
    || (e.TransactionAnomalyFlagged? && key == AnomalyKey(e.tx))
    || (e.TransactionCategorized? && e.amount <= -th.large && e.amount < 0 && key == LargeKey(e.tx))
    || (e.TransactionCategorized? && key.BudgetKey? && key.user == e.user && key.currency == e.currency
        && key.month == month && e.category == Some(key.category) && key.category != ""
        && spend.Some? && spend.value >= th.budget)
  }

  /** An alert says whose it is, about which transaction, and of which kind. */
  predicate Says(a: Alert, e: Event) {
    a.user == e.user && a.tx == e.tx
    && (a.key.LargeKey? <==> a.kind == LargeTransaction) && (a.key.AnomalyKey? <==> a.kind == AnomalyFlagged)
    && (a.key.BudgetKey? <==> a.kind == BudgetThreshold)
  }

  lemma EvaluatedIff(e: Event, th: Thresholds, spend: Option<int>, month: int, key: Key)
    ensures (exists a :: a in Evaluate(e, th, spend, month) && a.key == key) <==> CallsFor(e, th, spend, month, key)
    ensures forall a | a in Evaluate(e, th, spend, month) :: Says(a, e)
  {
    var alerts := Evaluate(e, th, spend, month);
    if CallsFor(e, th, spend, month, key) {
      var k := if key.BudgetKey? then |alerts| - 1 else 0;
      assert alerts[k] in alerts && alerts[k].key == key;
    }
  }

  /** After one event was evaluated and stored, a key is in store exactly when it was before or
      the event calls for it; what was stored for it says whose alert it is. */
  lemma StoredIffCalledFor(notes: Notes, notes': Notes, e: Event, th: Thresholds, spend: Option<int>, month: int,
                           ids: seq<Id>, key: Key)
    requires AddsAlerts(notes, notes', Evaluate(e, th, spend, month), ids)
    ensures HasKey(notes', key) <==> HasKey(notes, key) || CallsFor(e, th, spend, month, key)
    ensures forall n | n in notes' && n !in notes :: Says(notes'[n].alert, e) && !notes'[n].delivered
  {
    EvaluatedIff(e, th, spend, month, key);
    if n :| n in notes && notes[n].alert.key == key { assert n in notes'; }
    if a :| a in Evaluate(e, th, spend, month) && a.key == key { assert HasKey(notes', a.key); }
    if n :| n in notes' && notes'[n].alert.key == key {
      assert n in notes || notes'[n].alert in Evaluate(e, th, spend, month);
    }
  }
}
