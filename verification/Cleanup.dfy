/** What demo cleanup removes and what it leaves, in terms of the tables alone. */
module Cleanup {
  import opened Common
  import opened Store
  import opened Ledger

  // ---------------------------------------------------------------- the generator's external ids

  predicate IsNumeral(s: string) { s != "" && forall c | c in s :: c in "0123456789" }

  /** The generator's external ids, spelled out. */
  predicate DemoId(extId: string, n: string, m: string) {
    && IsNumeral(n)
    && (extId == "seed_" + n + "_outlier"
        || (IsNumeral(m) && (extId == "seed_" + n + "_" + m || extId == "seed_" + n + "_payroll_" + m)))
  }

  ghost predicate IsDemoId(extId: string) { exists n, m :: DemoId(extId, n, m) }

  lemma DigitIs(c: char)
    requires '0' <= c <= '9'
    ensures c in "0123456789"
  {
    assert "0123456789"[c as int - '0' as int] == c;
  }

  lemma NumeralIff(s: string)
    ensures Digits(s) <==> IsNumeral(s)
  {
    if Digits(s) {
      forall c | c in s ensures c in "0123456789" { DigitIs(c); }
    }
    if IsNumeral(s) {
      forall i | 0 <= i < |s| ensures '0' <= s[i] <= '9' { assert s[i] in s; }
    }
  }

  lemma JoinedIsGenerated(extId: string, n: string, rest: string)
    requires Digits(n) && GeneratedTail(rest) && extId == "seed_" + n + "_" + rest
    ensures Generated(extId)
  {
    var i := 5 + |n|;
    assert extId[..5] == "seed_" && extId[5..i] == n && extId[i] == '_' && extId[i + 1..] == rest;
    assert GeneratedAt(extId, i);
  }

  lemma CutsInFour(s: string, i: nat)
    requires 5 <= i < |s|
    ensures s == s[..5] + s[5..i] + [s[i]] + s[i + 1..]
  {}

  lemma GeneratedIsJoined(extId: string) returns (n: string, rest: string)
    requires Generated(extId)
    ensures Digits(n) && GeneratedTail(rest) && extId == "seed_" + n + "_" + rest
  {
    var i :| 5 <= i < |extId| && GeneratedAt(extId, i);
    n, rest := extId[5..i], extId[i + 1..];
    CutsInFour(extId, i);
  }

  lemma PayrollTail(m: string)
    requires Digits(m)
    ensures GeneratedTail("payroll_" + m)
  {
    assert ("payroll_" + m)[..8] == "payroll_" && ("payroll_" + m)[8..] == m;
  }

  lemma SpelledIsGenerated(extId: string, n: string, m: string)
    requires DemoId(extId, n, m)
    ensures Generated(extId)
  {
    NumeralIff(n);
    NumeralIff(m);
    if extId == "seed_" + n + "_outlier" {
      assert extId == "seed_" + n + "_" + "outlier";
      JoinedIsGenerated(extId, n, "outlier");
    } else if extId == "seed_" + n + "_" + m {
      JoinedIsGenerated(extId, n, m);
    } else {
      PayrollTail(m);
      assert extId == "seed_" + n + "_" + ("payroll_" + m);
      JoinedIsGenerated(extId, n, "payroll_" + m);
    }
  }

  lemma TailIsSpelled(n: string, rest: string)
    requires IsNumeral(n) && GeneratedTail(rest)
    ensures IsDemoId("seed_" + n + "_" + rest)
  {
    var extId := "seed_" + n + "_" + rest;
    if Digits(rest) {
      NumeralIff(rest);
      assert DemoId(extId, n, rest);
    } else if rest == "outlier" {
      assert extId == "seed_" + n + "_outlier";
      assert DemoId(extId, n, "");
    } else {
      NumeralIff(rest[8..]);
      assert rest == "payroll_" + rest[8..];
      assert extId == "seed_" + n + "_payroll_" + rest[8..];
      assert DemoId(extId, n, rest[8..]);
    }
  }

  lemma GeneratedIff(extId: string)
    ensures Generated(extId) <==> IsDemoId(extId)
  {
    if n, m :| DemoId(extId, n, m) { SpelledIsGenerated(extId, n, m); }
    if Generated(extId) {
      var n, rest := GeneratedIsJoined(extId);
      NumeralIff(n);
      TailIsSpelled(n, rest);
    }
  }

  // ---------------------------------------------------------------- rows

  predicate OwnedTx(d: Db, user: Id, x: Id) {
    x in d.txs && d.txs[x].account in d.accounts && d.accounts[d.txs[x].account].user == user
  }

  /** Gone are exactly the user's transactions with the generator's external ids; every other
      transaction is as it was. */
  ghost predicate OnlyDemoTxsGone(d: Db, d': Db, user: Id) {
    && (forall x | x in d.txs :: x !in d'.txs <==> OwnedTx(d, user, x) && IsDemoId(d.txs[x].extId))
    && (forall x | x in d'.txs :: x in d.txs && d'.txs[x] == d.txs[x])
  }

  /** Jobs and outbox rows go with their transactions, and no others; the rest stay as they were. */
  ghost predicate OnlyTheirRowsGone(d: Db, d': Db) {
    && (forall x | x in d.jobs.rows :: x !in d'.jobs.rows <==> x in d.txs && x !in d'.txs)
    && (forall x | x in d'.jobs.rows :: x in d.jobs.rows && d'.jobs.rows[x] == d.jobs.rows[x])
    && (forall o | o in d.outbox.rows ::
          o !in d'.outbox.rows <==> o in d.events && d.events[o].tx in d.txs && d.events[o].tx !in d'.txs)
    && (forall o | o in d'.outbox.rows :: o in d.outbox.rows && d'.outbox.rows[o] == d.outbox.rows[o])
  }

  lemma GeneratedIdsAre(d: Db, user: Id, x: Id)
    ensures x in GeneratedIds(d, user) <==> OwnedTx(d, user, x) && IsDemoId(d.txs[x].extId)
  {
    if x in d.txs { GeneratedIff(d.txs[x].extId); }
  }

  lemma RemovesTxs(d: Db, user: Id)
    ensures OnlyDemoTxsGone(d, CleanupUser(d, user), user)
  {
    var d' := CleanupUser(d, user);
    forall x | x in d.txs ensures x !in d'.txs <==> OwnedTx(d, user, x) && IsDemoId(d.txs[x].extId) {
      GeneratedIdsAre(d, user, x);
    }
  }

  lemma RemovesTheirRows(d: Db, user: Id)
    ensures OnlyTheirRowsGone(d, CleanupUser(d, user))
  {
    var ids, d' := GeneratedIds(d, user), CleanupUser(d, user);
    assert forall x :: x in ids <==> x in d.txs && x !in d'.txs;
  }

  // ---------------------------------------------------------------- accounts

  /** What becomes of one account whose balance ends at `left`: an emptied one of the demo bank
      goes, or becomes the plain checking account. */
  predicate TidiedTo(was: Account, left: int, empty: bool, now: Option<Account>) {
    var demo := empty && left == 0 && was.institution == Some("First Demo Bank");
    && (now.None? <==> demo && was.name == "Rewards Credit Card")
    && (now.Some? && demo && was.name == "Everyday Checking" ==>
          now.value == Account(was.user, "Checking", None, was.currency, 0))
    && (now.Some? && !(demo && was.name == "Everyday Checking") ==>
          now.value == Account(was.user, was.name, was.institution, was.currency, left))
  }

  function AccountNow(d: Db, a: Id): Option<Account> { if a in d.accounts then Some(d.accounts[a]) else None }

  predicate IsEmpty(d: Db, a: Id) { forall x | x in d.txs :: d.txs[x].account != a }

  /** One of the user's accounts: its balance falls by what left it, and it is tidied. */
  ghost predicate AccountTidied(d: Db, d': Db, a: Id)
    requires a in d.accounts
  {
    TidiedTo(d.accounts[a], d.accounts[a].balance - (Sum(d.txs, a) - Sum(d'.txs, a)), IsEmpty(d', a), AccountNow(d', a))
  }

  ghost predicate OnlyDemoAccountsTidied(d: Db, d': Db, user: Id) {
    forall a | a in d.accounts ::
      if d.accounts[a].user == user && d'.txs != d.txs then AccountTidied(d, d', a)
      else AccountNow(d', a) == Some(d.accounts[a])
  }

  lemma TidiedIs(account: Account, delta: int, retained: bool)
    ensures TidiedTo(account, account.balance - delta, !retained, Tidied(account, delta, retained))
  {}

  lemma TidiedNow(d: Db, user: Id, ids: set<Id>, a: Id)
    requires ids == GeneratedIds(d, user) && ids != {} && a in d.accounts
    ensures AccountNow(CleanupUser(d, user), a)
         == if d.accounts[a].user == user then TidiedAccount(d, ids, a) else Some(d.accounts[a])
    ensures CleanupUser(d, user).txs == d.txs - ids
  {}

  lemma TidiesOne(d: Db, user: Id, ids: set<Id>, a: Id)
    requires ids == GeneratedIds(d, user) && ids != {} && a in d.accounts && d.accounts[a].user == user
    ensures AccountTidied(d, CleanupUser(d, user), a)
  {
    var retained := exists x | x in d.txs && x !in ids :: d.txs[x].account == a;
    TidiedNow(d, user, ids, a);
    RestrictSplits(d.txs, ids, a);
    TidiedIs(d.accounts[a], Sum(Restrict(d.txs, ids), a), retained);
    RetainedIff(d.txs, ids, a, retained, CleanupUser(d, user));
  }

  lemma RetainedIff(txs: map<Id, Tx>, ids: set<Id>, a: Id, retained: bool, d': Db)
    requires d'.txs == txs - ids && retained == exists x | x in txs && x !in ids :: txs[x].account == a
    ensures retained <==> !IsEmpty(d', a)
  {
    if x :| x in txs && x !in ids && txs[x].account == a { assert x in d'.txs; }
  }

  lemma TidiesAccounts(d: Db, user: Id)
    ensures OnlyDemoAccountsTidied(d, CleanupUser(d, user), user)
  {
    var ids, d' := GeneratedIds(d, user), CleanupUser(d, user);
    if ids != {} {
      var some := Pick(ids);
      forall a | a in d.accounts
        ensures d'.txs != d.txs
        ensures if d.accounts[a].user == user then AccountTidied(d, d', a) else AccountNow(d', a) == Some(d.accounts[a])
      {
        TidiedNow(d, user, ids, a);
        assert some in d.txs && some !in d'.txs;
        if d.accounts[a].user == user { TidiesOne(d, user, ids, a); }
      }
    }
  }

  /** What cleanup removes, and what it leaves. */
  ghost predicate OnlyDemoGone(d: Db, d': Db, user: Id) {
    OnlyDemoTxsGone(d, d', user) && OnlyTheirRowsGone(d, d') && OnlyDemoAccountsTidied(d, d', user)
  }

  lemma CleanupRemovesExactly(d: Db, user: Id)
    ensures OnlyDemoGone(d, CleanupUser(d, user), user)
  {
    RemovesTxs(d, user);
    RemovesTheirRows(d, user);
    TidiesAccounts(d, user);
  }

  /** Imported rows are never taken for generated ones. */
  lemma OthersAreKept(d: Db, user: Id, x: Id)
    requires x in d.txs && !("seed_" <= d.txs[x].extId)
    ensures x in CleanupUser(d, user).txs && CleanupUser(d, user).txs[x] == d.txs[x]
  {
    RemovesTxs(d, user);
    if n, m :| DemoId(d.txs[x].extId, n, m) { StartsWithSeed(d.txs[x].extId, n, m); }
  }

  lemma StartsWithSeed(extId: string, n: string, m: string)
    requires DemoId(extId, n, m)
    ensures "seed_" <= extId
  {}
}
