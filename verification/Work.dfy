/** Leased claims on durable rows: the categorization jobs and the event outbox. */
module Work {
  import opened Common

  const MAX_ATTEMPTS: nat := 10
  const LEASE: int := 120 * SECOND

  datatype Row = Row(
    partition: Id,
    createdAt: Instant,
    attempts: nat,
    availableAt: Instant,
    lockedUntil: Option<Instant>,
    lockToken: Option<Id>,
    lastError: Option<string>,
    completedAt: Option<Instant>)

  type Table = map<Id, Row>

  datatype WorkClaim = WorkClaim(id: Id, token: Id, attempts: nat)

  // ---------------------------------------------------------------- one statement each

  predicate Before(t: Table, a: Id, b: Id)
    requires a in t && b in t
  {
    t[a].createdAt < t[b].createdAt || (t[a].createdAt == t[b].createdAt && a < b)
  }

  predicate Eligible(r: Row, now: Instant) {
    && r.completedAt.None?
    && r.attempts < MAX_ATTEMPTS
    && r.availableAt <= now
    && (r.lockedUntil.None? || r.lockedUntil.value <= now)
  }

  /** `p` is an unfinished row of `r`'s partition that sorts before `r`. */
  predicate Blocks(t: Table, p: Id, r: Id)
    requires r in t
  {
    p in t && t[p].partition == t[r].partition && t[p].completedAt.None? && Before(t, p, r)
  }

  predicate Blocked(t: Table, r: Id)
    requires r in t
  {
    exists p | p in t :: Blocks(t, p, r)
  }

  /** The rows the claim statement may pick. `skip` is the set of rows locked by other
      transactions, which SKIP LOCKED passes over. */
  predicate Claimable(t: Table, ordered: bool, skip: set<Id>, now: Instant, id: Id) {
    id in t && id !in skip && Eligible(t[id], now) && (ordered ==> !Blocked(t, id))
  }

  predicate IsCandidate(t: Table, ordered: bool, skip: set<Id>, now: Instant, id: Id) {
    && Claimable(t, ordered, skip, now, id)
    && forall o | o in t && Claimable(t, ordered, skip, now, o) :: o == id || Before(t, id, o)
  }

  function ClaimRow(t: Table, id: Id, now: Instant, lease: int, token: Id): Table
    requires id in t
  {
    t[id := t[id].(lockedUntil := Some(now + lease), lockToken := Some(token), attempts := t[id].attempts + 1)]
  }

  predicate Owns(t: Table, c: WorkClaim, now: Instant) {
    && c.id in t
    && t[c.id].lockToken == Some(c.token)
    && t[c.id].completedAt.None?
    && t[c.id].lockedUntil.Some? && t[c.id].lockedUntil.value > now
  }

  function CompleteRow(t: Table, c: WorkClaim, at: Instant): Table {
    if c.id in t && t[c.id].lockToken == Some(c.token) then
      t[c.id := t[c.id].(completedAt := Some(at), lockedUntil := None, lockToken := None, lastError := None)]
    else t
  }

  function Min(a: int, b: int): int { if a <= b then a else b }

  function Pow2(n: nat): nat { if n == 0 then 1 else 2 * Pow2(n - 1) }

  function RetryDelay(attempts: nat): int { Min(Pow2(Min(attempts, 6)), 60) * SECOND }

  predicate Retryable(t: Table, c: WorkClaim) {
    c.id in t && t[c.id].lockToken == Some(c.token) && t[c.id].completedAt.None?
  }

  function RetryRow(t: Table, c: WorkClaim, at: Instant, error: string): Table {
    if Retryable(t, c) then
      t[c.id := t[c.id].(availableAt := at + RetryDelay(c.attempts), lockedUntil := None, lockToken := None,
                         lastError := Some(error[..Min(|error|, 80)]))]
    else t
  }

  // ---------------------------------------------------------------- order

  lemma BeforeTotal(t: Table, a: Id, b: Id)
    requires a in t && b in t
    ensures a == b || Before(t, a, b) || Before(t, b, a)
    ensures !(Before(t, a, b) && Before(t, b, a))
  {}

  /** A non-empty set of rows has a first one in `(created_at, id)` order. */
  lemma {:induction false} FirstOf(t: Table, s: set<Id>) returns (m: Id)
    requires s != {}
    requires s <= t.Keys
    ensures m in s && forall o | o in s :: o == m || Before(t, m, o)
    decreases s
  {
    var x := Pick(s);
    if s == {x} {
      m := x;
    } else {
      var rest := FirstOf(t, s - {x});
      m := if Before(t, x, rest) then x else rest;
      forall o | o in s ensures o == m || Before(t, m, o) {
        if o != x { assert o in s - {x}; }
      }
    }
  }

  // ---------------------------------------------------------------- the repository

  /** The table behind one work model. `ordered` is true for the outbox, whose claims
      keep each partition in order. */
  class WorkRepository {
    const ordered: bool
    var rows: Table

    constructor (ordered: bool, rows: Table)
      ensures this.ordered == ordered && this.rows == rows
    {
      this.ordered, this.rows := ordered, rows;
    }

    /** One atomic UPDATE over the first claimable row; nothing changes when there is none. */
    method Claim(now: Instant, lease: int, token: Id, skip: set<Id>) returns (c: Option<WorkClaim>)
      modifies this
      ensures c.None? <==> forall id | id in old(rows) :: !Claimable(old(rows), ordered, skip, now, id)
      ensures c.None? ==> rows == old(rows)
      ensures c.Some? ==>
        && IsCandidate(old(rows), ordered, skip, now, c.value.id)
        && rows == ClaimRow(old(rows), c.value.id, now, lease, token)
        && c.value == WorkClaim(c.value.id, token, rows[c.value.id].attempts)
      ensures c.Some? ==> var (id, row) := (c.value.id, old(rows)[c.value.id]);
        && id !in skip && row.availableAt <= now && (row.lockedUntil.Some? ==> row.lockedUntil.value <= now)
        && forall o | o in old(rows) && Claimable(old(rows), ordered, skip, now, o) ::
             row.createdAt < old(rows)[o].createdAt || (row.createdAt == old(rows)[o].createdAt && id <= o)
    {
      var eligible := set id | id in rows && Claimable(rows, ordered, skip, now, id);
      if eligible == {} {
        assert forall id | id in rows && Claimable(rows, ordered, skip, now, id) :: id in eligible;
        return None;
      }
      ghost var first := FirstOf(rows, eligible);
      assert IsCandidate(rows, ordered, skip, now, first);
      var id :| id in rows && IsCandidate(rows, ordered, skip, now, id);
      var row := rows[id];
      row := row.(lockedUntil := Some(now + lease), lockToken := Some(token));
      row := row.(attempts := row.attempts + 1);
      rows := rows[id := row];
      c := Some(WorkClaim(id, token, row.attempts));
    }

    method CheckOwns(claim: WorkClaim, now: Instant) returns (ok: bool)
      ensures ok <==> Owns(rows, claim, now)
    {
      if claim.id !in rows { return false; }
      var row := rows[claim.id];
      ok := row.lockToken == Some(claim.token) && row.completedAt.None?
            && row.lockedUntil.Some? && row.lockedUntil.value > now;
    }

    method Complete(claim: WorkClaim, at: Instant)
      modifies this
      ensures rows == CompleteRow(old(rows), claim, at)
    {
      if claim.id in rows && rows[claim.id].lockToken == Some(claim.token) {
        var row := rows[claim.id].(completedAt := Some(at));
        row := row.(lockedUntil := None, lockToken := None, lastError := None);
        rows := rows[claim.id := row];
      }
    }

    method Retry(claim: WorkClaim, at: Instant, error: string)
      modifies this
      ensures rows == RetryRow(old(rows), claim, at, error)
    {
      if claim.id in rows && rows[claim.id].lockToken == Some(claim.token) && rows[claim.id].completedAt.None? {
        var delay := Pow2(Min(claim.attempts, 6));
        if delay > 60 { delay := 60; }
        var row := rows[claim.id].(availableAt := at + delay * SECOND);
        row := row.(lockedUntil := None, lockToken := None, lastError := Some(error[..Min(|error|, 80)]));
        rows := rows[claim.id := row];
      }
    }
  }
}
