/** The demo script's cleanup, loop by loop: balance differences first, then rows and accounts. */
module Seeding {
  import opened Common
  import opened Store
  import opened Ledger
  import opened Service
  import opened Cleanup

  predicate Retained(txs: map<Id, Tx>, ids: set<Id>, a: Id) { exists x | x in txs && x !in ids :: txs[x].account == a }

  /** The accounts once those in `done` were tidied. */
  ghost function TidiedSoFar(d: Db, ids: set<Id>, done: set<Id>): map<Id, Account> {
    map a | a in d.accounts && (a in done ==> TidiedAccount(d, ids, a).Some?) ::
      if a in done then TidiedAccount(d, ids, a).value else d.accounts[a]
  }

  lemma OneMoreAmount(txs: map<Id, Tx>, done: set<Id>, x: Id, a: Id)
    requires x in txs && x !in done
    ensures Sum(Restrict(txs, done + {x}), a) == Sum(Restrict(txs, done), a) + AmountFor(txs[x], a)
  {
    var more := Restrict(txs, done + {x});
    SumWithout(more, x, a);
    assert more - {x} == Restrict(txs, done);
  }

  ghost predicate DeltasOf(deltas: map<Id, int>, txs: map<Id, Tx>, mine: set<Id>, ids: set<Id>) {
    deltas.Keys == mine && forall a | a in mine :: deltas[a] == Sum(Restrict(txs, ids), a)
  }

  lemma OneMoreDelta(deltas: map<Id, int>, txs: map<Id, Tx>, mine: set<Id>, done: set<Id>, x: Id)
    requires DeltasOf(deltas, txs, mine, done) && x in txs && x !in done && txs[x].account in mine
    ensures DeltasOf(deltas[txs[x].account := deltas[txs[x].account] + txs[x].amount], txs, mine, done + {x})
  {
    forall a | a in mine
      ensures Sum(Restrict(txs, done + {x}), a) == Sum(Restrict(txs, done), a) + AmountFor(txs[x], a)
    {
      OneMoreAmount(txs, done, x, a);
    }
  }

  method AddDelta(deltas: map<Id, int>, tx: Tx, ghost txs: map<Id, Tx>, ghost mine: set<Id>, ghost done: set<Id>,
                  ghost x: Id)
    returns (more: map<Id, int>)
    requires DeltasOf(deltas, txs, mine, done) && x in txs && x !in done && txs[x] == tx && tx.account in mine
    ensures DeltasOf(more, txs, mine, done + {x})
  {
    OneMoreDelta(deltas, txs, mine, done, x);
    more := deltas[tx.account := deltas[tx.account] + tx.amount];
  }

  lemma NoDeltas(txs: map<Id, Tx>, mine: set<Id>)
    ensures DeltasOf(map a | a in mine :: 0, txs, mine, {})
  {
    assert Restrict(txs, {}) == map[];
  }

  method Deltas(txs: map<Id, Tx>, mine: set<Id>, ids: set<Id>) returns (deltas: map<Id, int>)
    requires forall x | x in ids :: x in txs && txs[x].account in mine
    ensures DeltasOf(deltas, txs, mine, ids)
  {
    deltas := map a | a in mine :: 0;
    NoDeltas(txs, mine);
    var left := ids;
    ghost var done: set<Id> := {};
    while left != {}
      invariant left <= ids && done == ids - left
      invariant DeltasOf(deltas, txs, mine, done)
      decreases |left|
    {
      SomeKey(left);
      var x :| x in left;
      deltas := AddDelta(deltas, txs[x], txs, mine, done, x);
      left, done := left - {x}, done + {x};
    }
    assert done == ids;
  }

  function WithTidied(accounts: map<Id, Account>, a: Id, after: Option<Account>): map<Id, Account> {
    if after.Some? then accounts[a := after.value] else accounts - {a}
  }

  lemma OneMoreTidied(d: Db, ids: set<Id>, done: set<Id>, a: Id)
    requires a in d.accounts && a !in done
    ensures TidiedSoFar(d, ids, done + {a}) == WithTidied(TidiedSoFar(d, ids, done), a, TidiedAccount(d, ids, a))
  {}

  lemma TidiedByDelta(d: Db, ids: set<Id>, mine: set<Id>, deltas: map<Id, int>, a: Id)
    requires mine <= d.accounts.Keys && DeltasOf(deltas, d.txs, mine, ids) && a in mine
    ensures a in deltas && Tidied(d.accounts[a], deltas[a], Retained(d.txs, ids, a)) == TidiedAccount(d, ids, a)
  {}

  method TidyAccounts(ghost d: Db, accounts: map<Id, Account>, txs: map<Id, Tx>, ids: set<Id>, mine: set<Id>,
                      deltas: map<Id, int>)
    returns (tidied: map<Id, Account>)
    requires accounts == d.accounts && txs == d.txs && mine <= accounts.Keys && DeltasOf(deltas, txs, mine, ids)
    ensures tidied == TidiedSoFar(d, ids, mine)
  {
    tidied := accounts;
    var left := mine;
    ghost var done: set<Id> := {};
    assert TidiedSoFar(d, ids, {}) == accounts;
    while left != {}
      invariant left <= mine && done == mine - left
      invariant tidied == TidiedSoFar(d, ids, done)
      decreases |left|
    {
      SomeKey(left);
      var a :| a in left;
      OneMoreTidied(d, ids, done, a);
      TidiedByDelta(d, ids, mine, deltas, a);
      tidied := WithTidied(tidied, a, Tidied(accounts[a], deltas[a], Retained(txs, ids, a)));
      left, done := left - {a}, done + {a};
    }
    assert done == mine;
  }

  method FindGenerated(accounts: map<Id, Account>, txs: map<Id, Tx>, ghost d: Db, user: Id)
    returns (mine: set<Id>, ids: set<Id>)
    requires accounts == d.accounts && txs == d.txs
    ensures mine == OwnedBy(d, user) && ids == GeneratedIds(d, user)
  {
    mine := set a | a in accounts && accounts[a].user == user;
    ids := set x | x in txs && txs[x].account in mine && Generated(txs[x].extId);
  }

  /** The deletes and the tidied accounts together are the cleanup. */
  lemma CleanupIs(d: Db, d': Db, user: Id)
    requires var ids := GeneratedIds(d, user);
      && ids != {} && d'.accounts == TidiedSoFar(d, ids, OwnedBy(d, user)) && d'.txs == d.txs - ids
      && d'.jobs == d.jobs.(rows := d.jobs.rows - ids)
      && d'.outbox == d.outbox.(rows := WithoutRowsOf(d.outbox.rows, d.events, ids))
    requires d'.audits == d.audits && d'.events == d.events && d'.sessions == d.sessions && d'.used == d.used
    ensures d' == CleanupUser(d, user)
  {}

  /** Removes the generated rows of the user's accounts, which it has locked. */
  method ClearDemoTransactions(service: TransactionsService, user: Id) returns (removed: nat)
    modifies service
    ensures service.State() == CleanupUser(old(service.State()), user)
    ensures removed == |GeneratedIds(old(service.State()), user)|
    ensures OnlyDemoGone(old(service.State()), service.State(), user)
  {
    ghost var d := service.State();
    removed := RemoveGenerated(service, user);
    CleanupRemovesExactly(d, user);
  }

  method RemoveGenerated(service: TransactionsService, user: Id) returns (removed: nat)
    modifies service
    ensures service.State() == CleanupUser(old(service.State()), user)
    ensures removed == |GeneratedIds(old(service.State()), user)|
  {
    ghost var d := service.State();
    var mine, ids := FindGenerated(service.accounts, service.txs, d, user);
    if ids == {} { return 0; }
    var deltas := Deltas(service.txs, mine, ids);
    var tidied := TidyAccounts(d, service.accounts, service.txs, ids, mine, deltas);
    service.RemoveRows(ids);
    service.SetAccounts(tidied);
    CleanupIs(d, service.State(), user);
    removed := |ids|;
  }
}
