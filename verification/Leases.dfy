/** Runs of one work table: every claim ever issued, and what leases guarantee over
    arbitrary interleavings of claims, completions, retries, inserts and deletes. */
module Leases {
  import opened Common
  import opened Work

  /** One issued claim. `released` is set when `retry` gave the lease back. */
  datatype Issue = Issue(token: Id, at: Instant, until: Instant, released: bool)

  /** The table; for every id ever inserted the claims issued for it, oldest first; and for
      every token which claim it was made for. */
  datatype Queue = Queue(rows: Table, issued: map<Id, seq<Issue>>, tokens: map<Id, (Id, int)>)

  datatype Step =
    | Insert(added: Table)
    | Claim(id: Id, now: Instant, lease: int, token: Id, skip: set<Id>)
    | Complete(claim: WorkClaim, at: Instant)
    | Retry(claim: WorkClaim, at: Instant, error: string)
    | Remove(ids: set<Id>)

  const EMPTY := Queue(map[], map[], map[])

  predicate NewRow(r: Row) {
    r.attempts == 0 && r.lockedUntil.None? && r.lockToken.None? && r.completedAt.None?
  }

  /** An untouched row that may be claimed from its creation on. */
  predicate Due(r: Row) { NewRow(r) && r.availableAt == r.createdAt }

  /** The environment: ids are never reused and lease tokens are fresh. */
  ghost predicate Enabled(ordered: bool, q: Queue, s: Step) {
    match s
    case Insert(added) => added.Keys !! q.issued.Keys && forall id | id in added :: NewRow(added[id])
    case Claim(id, now, lease, token, skip) => IsCandidate(q.rows, ordered, skip, now, id) && token !in q.tokens
      && id in q.issued
    case Complete(_, _) => true
    case Retry(_, _, _) => true
    case Remove(_) => true
  }

  function Released(h: seq<Issue>): seq<Issue> {
    if h == [] then h else h[..|h| - 1] + [h[|h| - 1].(released := true)]
  }

  function NoIssues(added: Table): map<Id, seq<Issue>> { map id | id in added :: [] }

  function InsertRows(q: Queue, added: Table): Queue {
    q.(rows := q.rows + added, issued := q.issued + NoIssues(added))
  }

  ghost function Apply(ordered: bool, q: Queue, s: Step): Queue
    requires Enabled(ordered, q, s)
  {
    match s
    case Insert(added) => InsertRows(q, added)
    case Claim(id, now, lease, token, _) =>
      Queue(ClaimRow(q.rows, id, now, lease, token),
            q.issued[id := q.issued[id] + [Issue(token, now, now + lease, false)]],
            q.tokens[token := (id, |q.issued[id]|)])
    case Complete(c, at) => q.(rows := CompleteRow(q.rows, c, at))
    case Retry(c, at, error) =>
      q.(rows := RetryRow(q.rows, c, at, error),
         issued := if Retryable(q.rows, c) && c.id in q.issued
                   then q.issued[c.id := Released(q.issued[c.id])] else q.issued)
    case Remove(ids) => q.(rows := q.rows - ids)
  }

  // ---------------------------------------------------------------- the invariant

  /** What one row says about the claims issued for it. */
  predicate RowMatches(r: Row, h: seq<Issue>) {
    && r.attempts == |h| <= MAX_ATTEMPTS
    && (r.completedAt.Some? ==> r.lockToken.None? && h != [])
    && (r.lockToken.None? <==> r.lockedUntil.None?)
    && (r.lockToken.Some? ==>
          h != [] && r.lockToken == Some(h[|h| - 1].token) && r.lockedUntil == Some(h[|h| - 1].until)
          && !h[|h| - 1].released)
    && (r.lockToken.None? && r.completedAt.None? && h != [] ==> h[|h| - 1].released)
  }

  /** Each lease had run out, by the next claimer's clock, or had been given back. */
  predicate Handover(h: seq<Issue>) {
    forall i | 0 <= i < |h| - 1 :: h[i].until <= h[i + 1].at || h[i].released
  }

  /** No token was handed out twice. */
  predicate TokensUnique(q: Queue) {
    forall id, i | id in q.issued && 0 <= i < |q.issued[id]| ::
      q.issued[id][i].token in q.tokens && q.tokens[q.issued[id][i].token] == (id, i)
  }

  ghost predicate Inv(q: Queue) {
    && q.rows.Keys <= q.issued.Keys
    && (forall id | id in q.rows :: RowMatches(q.rows[id], q.issued[id]))
    && (forall id | id in q.issued :: |q.issued[id]| <= MAX_ATTEMPTS && Handover(q.issued[id]))
    && TokensUnique(q)
  }

  lemma ClaimKeepsInv(ordered: bool, q: Queue, s: Step)
    requires s.Claim? && Inv(q) && Enabled(ordered, q, s)
    ensures Inv(Apply(ordered, q, s))
  {
    var q' := Apply(ordered, q, s);
    ClaimedRowMatches(q.rows[s.id], q.issued[s.id], s.now, s.lease, s.token);
    TokensStayUnique(q, s.id, Issue(s.token, s.now, s.now + s.lease, false));
    assert forall id | id in q'.rows :: RowMatches(q'.rows[id], q'.issued[id]);
  }

  lemma ClaimedRowMatches(r: Row, h: seq<Issue>, now: Instant, lease: int, token: Id)
    requires RowMatches(r, h) && Handover(h) && Eligible(r, now)
    ensures var h' := h + [Issue(token, now, now + lease, false)];
      && RowMatches(r.(lockedUntil := Some(now + lease), lockToken := Some(token), attempts := r.attempts + 1), h')
      && |h'| <= MAX_ATTEMPTS && Handover(h')
  {
    var h' := h + [Issue(token, now, now + lease, false)];
    forall i | 0 <= i < |h'| - 1 ensures h'[i].until <= h'[i + 1].at || h'[i].released {
      if i < |h| - 1 { assert h[i].until <= h[i + 1].at || h[i].released; }
    }
  }

  lemma TokensStayUnique(q: Queue, id: Id, e: Issue)
    requires TokensUnique(q) && id in q.issued && e.token !in q.tokens
    ensures TokensUnique(Queue(q.rows, q.issued[id := q.issued[id] + [e]], q.tokens[e.token := (id, |q.issued[id]|)]))
  {}

  lemma ReleasedKeeps(h: seq<Issue>)
    requires Handover(h)
    ensures Handover(Released(h)) && |Released(h)| == |h|
    ensures forall i | 0 <= i < |h| :: Released(h)[i].token == h[i].token
  {}

  lemma RetryKeepsInv(ordered: bool, q: Queue, s: Step)
    requires s.Retry? && Inv(q) && Enabled(ordered, q, s)
    ensures Inv(Apply(ordered, q, s))
  {
    if Retryable(q.rows, s.claim) {
      var q', id := Apply(ordered, q, s), s.claim.id;
      assert RowMatches(q.rows[id], q.issued[id]);
      ReleasedKeeps(q.issued[id]);
      assert RowMatches(q'.rows[id], q'.issued[id]);
    }
  }

  lemma ApplyKeepsInv(ordered: bool, q: Queue, s: Step)
    requires Inv(q) && Enabled(ordered, q, s)
    ensures Inv(Apply(ordered, q, s))
  {
    match s
    case Claim(_, _, _, _, _) => ClaimKeepsInv(ordered, q, s);
    case Retry(_, _, _) => RetryKeepsInv(ordered, q, s);
    case _ =>
  }

  // ---------------------------------------------------------------- whole runs

  ghost predicate Run(ordered: bool, q: Queue, steps: seq<Step>)
    decreases |steps|
  {
    steps == [] || (Enabled(ordered, q, steps[0]) && Run(ordered, Apply(ordered, q, steps[0]), steps[1..]))
  }

  ghost function After(ordered: bool, q: Queue, steps: seq<Step>): Queue
    requires Run(ordered, q, steps)
    decreases |steps|
  {
    if steps == [] then q else After(ordered, Apply(ordered, q, steps[0]), steps[1..])
  }

  predicate SameIssue(e: Issue, e': Issue) {
    e'.token == e.token && e'.at == e.at && e'.until == e.until && (e.released ==> e'.released)
  }

  predicate Extends(h: seq<Issue>, h': seq<Issue>) {
    |h| <= |h'| && forall i | 0 <= i < |h| :: SameIssue(h[i], h'[i])
  }

  predicate SameRow(r: Row, r': Row) {
    r'.partition == r.partition && r'.createdAt == r.createdAt && (r.completedAt.Some? ==> r' == r)
  }

  /** What only grows: the claim history of each id; a row keeps its identity, and stays as it
      is once completed; a deleted row never returns. */
  ghost predicate Later(q: Queue, q': Queue) {
    && q.issued.Keys <= q'.issued.Keys
    && (forall id | id in q.issued :: Extends(q.issued[id], q'.issued[id]))
    && (forall id | id in q.rows && id in q'.rows :: SameRow(q.rows[id], q'.rows[id]))
    && (forall id | id in q.issued && id in q'.rows :: id in q.rows)
  }

  lemma ApplyLater(ordered: bool, q: Queue, s: Step)
    requires Inv(q) && Enabled(ordered, q, s)
    ensures Later(q, Apply(ordered, q, s))
  {
    var q' := Apply(ordered, q, s);
    forall id | id in q.rows && id in q'.rows ensures SameRow(q.rows[id], q'.rows[id]) {
      assert RowMatches(q.rows[id], q.issued[id]);
    }
    forall id | id in q.issued ensures Extends(q.issued[id], q'.issued[id]) {}
  }

  lemma LaterTrans(a: Queue, b: Queue, c: Queue)
    requires Inv(a) && Later(a, b) && Later(b, c)
    ensures Later(a, c)
  {
    forall id | id in a.rows && id in c.rows ensures SameRow(a.rows[id], c.rows[id]) {
      assert id in b.issued && id in b.rows;
    }
  }

  lemma {:induction false} RunKeeps(ordered: bool, q: Queue, steps: seq<Step>)
    requires Inv(q) && Run(ordered, q, steps)
    ensures Inv(After(ordered, q, steps)) && Later(q, After(ordered, q, steps))
    decreases |steps|
  {
    if steps != [] {
      var q1 := Apply(ordered, q, steps[0]);
      ApplyKeepsInv(ordered, q, steps[0]);
      ApplyLater(ordered, q, steps[0]);
      RunKeeps(ordered, q1, steps[1..]);
      LaterTrans(q, q1, After(ordered, q1, steps[1..]));
    }
  }

  // ---------------------------------------------------------------- leases

  /** The claim handed out as the `i`-th issue of `id`; its `attempts` is its rank. */
  function ClaimOf(q: Queue, id: Id, i: nat): WorkClaim
    requires id in q.issued && i < |q.issued[id]|
  {
    WorkClaim(id, q.issued[id][i].token, i + 1)
  }

  /** A claim owns its row only as the newest one of that row, before its own expiry, and
      while the row is unfinished. So at most one claim ever issued owns a row. */
  lemma OwnerIsNewest(q: Queue, id: Id, i: nat, now: Instant)
    requires Inv(q) && id in q.issued && i < |q.issued[id]|
    requires Owns(q.rows, ClaimOf(q, id, i), now)
    ensures i == |q.issued[id]| - 1 && q.rows[id].attempts == ClaimOf(q, id, i).attempts
    ensures now < q.issued[id][i].until && !q.issued[id][i].released
  {
    assert RowMatches(q.rows[id], q.issued[id]);
    assert q.issued[id][i].token == q.issued[id][|q.issued[id]| - 1].token;
  }

  /** Once superseded, released, or its row finished or gone, a claim never owns again; and past
      its expiry it does not own either, newest or not. */
  lemma Fenced(ordered: bool, q: Queue, steps: seq<Step>, id: Id, i: nat, now: Instant)
    requires Inv(q) && Run(ordered, q, steps) && id in q.issued && i < |q.issued[id]|
    requires i < |q.issued[id]| - 1 || q.issued[id][i].released || id !in q.rows || q.rows[id].completedAt.Some?
             || q.issued[id][i].until <= now
    ensures !Owns(After(ordered, q, steps).rows, ClaimOf(q, id, i), now)
  {
    RunKeeps(ordered, q, steps);
    var q' := After(ordered, q, steps);
    if Owns(q'.rows, ClaimOf(q, id, i), now) {
      assert ClaimOf(q', id, i) == ClaimOf(q, id, i);
      OwnerIsNewest(q', id, i, now);
      assert false;
    }
  }

  /** No claim of the row is stamped more than `skew` before an earlier one. */
  predicate SkewAtMost(h: seq<Issue>, skew: int) {
    forall a, b | 0 <= a <= b < |h| :: h[a].at <= h[b].at + skew
  }

  /** Every later claim of a row is made at or past the earlier claim's expiry, up to the skew
      of the claimers' clocks, unless `retry` released the earlier one. */
  lemma LaterClaimAfterExpiry(q: Queue, id: Id, i: nat, j: nat, skew: int)
    requires Inv(q) && id in q.issued && i < j < |q.issued[id]| && SkewAtMost(q.issued[id], skew)
    ensures q.issued[id][i].until <= q.issued[id][j].at + skew || q.issued[id][i].released
    ensures j == i + 1 ==> q.issued[id][i].until <= q.issued[id][j].at || q.issued[id][i].released
  {
    assert Handover(q.issued[id]);
    assert q.issued[id][i + 1].at <= q.issued[id][j].at + skew;
  }

  lemma {:induction false} RunExtends(ordered: bool, q: Queue, steps: seq<Step>, s: Step)
    requires Run(ordered, q, steps) && Enabled(ordered, After(ordered, q, steps), s)
    ensures Run(ordered, q, steps + [s])
    ensures After(ordered, q, steps + [s]) == Apply(ordered, After(ordered, q, steps), s)
    decreases |steps|
  {
    if steps != [] {
      RunExtends(ordered, Apply(ordered, q, steps[0]), steps[1..], s);
      assert (steps + [s])[1..] == steps[1..] + [s];
    } else {
      assert Run(ordered, Apply(ordered, q, s), []) && [s][1..] == [];
    }
  }

  // One row, three claimers, the third with a clock that is `skew` behind the second one's.

  function SkewedSteps(skew: int): seq<Step> {
    [Insert(map[1 := SkewedRow(0, 0, None, None)]), Claim(1, 0, LEASE, 0, {}), Claim(1, LEASE, LEASE, 1, {}),
     Retry(WorkClaim(1, 1, 2), LEASE - skew - RetryDelay(2), ""), Claim(1, LEASE - skew, LEASE, 2, {})]
  }

  function SkewedRow(attempts: nat, available: Instant, lease: Option<(Instant, Id)>, error: Option<string>): Row {
    Row(0, 0, attempts, available, if lease.Some? then Some(lease.value.0) else None,
        if lease.Some? then Some(lease.value.1) else None, error, None)
  }

  /** The table before step `k`. */
  function SkewedStage(k: nat, skew: int): Queue {
    var first, second := Issue(0, 0, LEASE, false), Issue(1, LEASE, 2 * LEASE, false);
    if k == 0 then EMPTY
    else if k == 1 then Queue(map[1 := SkewedRow(0, 0, None, None)], map[1 := []], map[])
    else if k == 2 then Queue(map[1 := SkewedRow(1, 0, Some((LEASE, 0)), None)], map[1 := [first]], map[0 := (1, 0)])
    else if k == 3 then
      Queue(map[1 := SkewedRow(2, 0, Some((2 * LEASE, 1)), None)], map[1 := [first, second]],
          map[0 := (1, 0), 1 := (1, 1)])
    else if k == 4 then
      Queue(map[1 := SkewedRow(2, LEASE - skew, None, Some(""))], map[1 := [first, second.(released := true)]],
          map[0 := (1, 0), 1 := (1, 1)])
    else
      Queue(map[1 := SkewedRow(3, LEASE - skew, Some((2 * LEASE - skew, 2)), Some(""))],
            map[1 := [first, second.(released := true), Issue(2, LEASE - skew, 2 * LEASE - skew, false)]],
            map[0 := (1, 0), 1 := (1, 1), 2 := (1, 2)])
  }

  lemma OnlyRowIsCandidate(t: Table, now: Instant)
    requires t.Keys == {1} && Eligible(t[1], now)
    ensures IsCandidate(t, false, {}, now, 1)
  {}

  lemma SkewedStep(k: nat, skew: nat)
    requires k < 5 && 1 <= skew <= LEASE
    ensures var s := SkewedSteps(skew)[k];
      Enabled(false, SkewedStage(k, skew), s) && Apply(false, SkewedStage(k, skew), s) == SkewedStage(k + 1, skew)
  {
    var q := SkewedStage(k, skew);
    if k == 0 { assert NoIssues(map[1 := SkewedRow(0, 0, None, None)]) == map[1 := []]; }
    if k == 1 { OnlyRowIsCandidate(q.rows, 0); }
    if k == 2 { OnlyRowIsCandidate(q.rows, LEASE); }
    if k == 3 {
      var h := q.issued[1];
      assert Released(h) == [h[0], h[1].(released := true)];
    }
    if k == 4 { OnlyRowIsCandidate(q.rows, LEASE - skew); }
    var q', next := Apply(false, q, SkewedSteps(skew)[k]), SkewedStage(k + 1, skew);
    assert q'.issued[1] == next.issued[1];
    assert q'.rows[1] == next.rows[1];
    assert q'.rows == next.rows && q'.issued == next.issued && q'.tokens == next.tokens;
  }

  lemma {:induction false} SkewedRun(k: nat, skew: nat)
    requires k <= 5 && 1 <= skew <= LEASE
    ensures Run(false, EMPTY, SkewedSteps(skew)[..k])
            && After(false, EMPTY, SkewedSteps(skew)[..k]) == SkewedStage(k, skew)
    decreases k
  {
    if k > 0 {
      SkewedRun(k - 1, skew);
      SkewedStep(k - 1, skew);
      RunExtends(false, EMPTY, SkewedSteps(skew)[..k - 1], SkewedSteps(skew)[k - 1]);
      assert SkewedSteps(skew)[..k] == SkewedSteps(skew)[..k - 1] + [SkewedSteps(skew)[k - 1]];
    }
  }

  /** Whatever small skew is allowed, some run stamps a third claim before the first one expires,
      though nobody released the first: the bound above cannot do without the skew. */
  lemma SkewedClocksBreakIt(skew: nat)
    requires 1 <= skew <= LEASE
    ensures Run(false, EMPTY, SkewedSteps(skew))
    ensures 1 in After(false, EMPTY, SkewedSteps(skew)).issued
    ensures var h := After(false, EMPTY, SkewedSteps(skew)).issued[1];
      |h| == 3 && SkewAtMost(h, skew) && !h[0].released && h[2].at == h[0].until - skew
  {
    SkewedRun(5, skew);
    assert SkewedSteps(skew)[..5] == SkewedSteps(skew);
  }

  // ---------------------------------------------------------------- rows wait for their time

  predicate NeverClaims(steps: seq<Step>, id: Id) { forall s | s in steps :: !(s.Claim? && s.id == id) }

  lemma UnleasedRowStays(ordered: bool, q: Queue, s: Step, id: Id)
    requires Enabled(ordered, q, s) && id in q.rows && id in q.issued && q.rows[id].lockToken.None?
    requires !(s.Claim? && s.id == id)
    ensures var q' := Apply(ordered, q, s); id in q'.issued && (id in q'.rows ==> q'.rows[id] == q.rows[id])
  {}

  lemma GoneRowStaysGone(ordered: bool, q: Queue, s: Step, id: Id)
    requires Enabled(ordered, q, s) && id !in q.rows && id in q.issued
    ensures var q' := Apply(ordered, q, s); id in q'.issued && id !in q'.rows
  {}

  /** Nothing but a claim touches a row that nobody leases, short of deleting it. */
  lemma {:induction false} WaitsUntilClaimed(ordered: bool, q: Queue, steps: seq<Step>, id: Id, row: Row)
    requires Run(ordered, q, steps) && NeverClaims(steps, id) && row.lockToken.None? && id in q.issued
    requires id in q.rows ==> q.rows[id] == row
    ensures var q' := After(ordered, q, steps); id in q'.rows ==> q'.rows[id] == row
    decreases |steps|
  {
    if steps != [] {
      assert steps[0] in steps && forall s | s in steps[1..] :: s in steps;
      if id in q.rows {
        UnleasedRowStays(ordered, q, steps[0], id);
      } else {
        GoneRowStaysGone(ordered, q, steps[0], id);
      }
      WaitsUntilClaimed(ordered, Apply(ordered, q, steps[0]), steps[1..], id, row);
    }
  }

  /** The pause after the `k`-th claim of a row was given back, in seconds. */
  function Pause(k: nat): nat {
    if k >= 6 then 60 else if k == 5 then 32 else if k == 4 then 16 else if k == 3 then 8
    else if k == 2 then 4 else if k == 1 then 2 else 1
  }

  lemma PauseIs(k: nat)
    ensures RetryDelay(k) == Pause(k) * SECOND
  {
    assert Pow2(1) == 2 && Pow2(2) == 4 && Pow2(3) == 8;
    assert Pow2(4) == 2 * Pow2(3) && Pow2(5) == 2 * Pow2(4) && Pow2(6) == 2 * Pow2(5);
  }

  /** Giving a claim back: the row is free, due after its pause, and says why; it keeps its place
      and its attempts, and no other row changes. */
  lemma RetryGivesBack(t: Table, c: WorkClaim, at: Instant, error: string)
    requires Retryable(t, c)
    ensures var t' := RetryRow(t, c, at, error);
      && t'.Keys == t.Keys && (forall id | id in t && id != c.id :: t'[id] == t[id])
      && var (was, row) := (t[c.id], t'[c.id]);
         && row.lockToken.None? && row.lockedUntil.None? && row.completedAt.None?
         && row.availableAt == at + Pause(c.attempts) * SECOND
         && row.lastError.Some? && row.lastError.value <= error
         && |row.lastError.value| == (if |error| <= 80 then |error| else 80)
         && row.attempts == was.attempts && row.partition == was.partition && row.createdAt == was.createdAt
  {
    PauseIs(c.attempts);
  }

  /** Completing: the row is finished, free and without an error, and no other row changes. */
  lemma CompleteFinishes(t: Table, c: WorkClaim, at: Instant)
    requires c.id in t && t[c.id].lockToken == Some(c.token)
    ensures var t' := CompleteRow(t, c, at);
      && t'.Keys == t.Keys && (forall id | id in t && id != c.id :: t'[id] == t[id])
      && var (was, row) := (t[c.id], t'[c.id]);
         && row.completedAt == Some(at) && row.lockToken.None? && row.lockedUntil.None? && row.lastError.None?
         && row.attempts == was.attempts && row.partition == was.partition && row.createdAt == was.createdAt
         && row.availableAt == was.availableAt
  {}

  /** A row given back is free from the end of its pause on, and until its next claim it stays so:
      no run whatever shortens or prolongs the pause. */
  lemma BackoffHolds(ordered: bool, q: Queue, id: Id, k: nat, at: Instant, error: string, steps: seq<Step>,
                     now: Instant, skip: set<Id>)
    requires Inv(q) && id in q.issued && 1 <= k <= |q.issued[id]| && Retryable(q.rows, ClaimOf(q, id, k - 1))
    requires Run(ordered, Apply(ordered, q, Retry(ClaimOf(q, id, k - 1), at, error)), steps) && NeverClaims(steps, id)
    ensures k == |q.issued[id]|
    ensures var q' := After(ordered, Apply(ordered, q, Retry(ClaimOf(q, id, k - 1), at, error)), steps);
      Claimable(q'.rows, ordered, skip, now, id) <==>
        && id in q'.rows && id !in skip && k < 10 && at + Pause(k) * SECOND <= now
        && (ordered ==> !Blocked(q'.rows, id))
  {
    var claim := ClaimOf(q, id, k - 1);
    assert RowMatches(q.rows[id], q.issued[id]);
    assert q.issued[id][k - 1].token == q.issued[id][|q.issued[id]| - 1].token;
    var q1 := Apply(ordered, q, Retry(claim, at, error));
    PauseIs(k);
    WaitsUntilClaimed(ordered, q1, steps, id, q1.rows[id]);
  }

  /** The next claim of a row given back comes no earlier than the end of its pause: 2, 4, 8, 16
      and 32 seconds after the first five claims, and a minute after every later one. */
  lemma NextClaimWaits(ordered: bool, q: Queue, id: Id, k: nat, at: Instant, error: string, steps: seq<Step>,
                       now: Instant, lease: int, token: Id, skip: set<Id>)
    requires Inv(q) && id in q.issued && 1 <= k <= |q.issued[id]| && Retryable(q.rows, ClaimOf(q, id, k - 1))
    requires Run(ordered, Apply(ordered, q, Retry(ClaimOf(q, id, k - 1), at, error)), steps) && NeverClaims(steps, id)
    requires Enabled(ordered, After(ordered, Apply(ordered, q, Retry(ClaimOf(q, id, k - 1), at, error)), steps),
                     Claim(id, now, lease, token, skip))
    ensures k < 10
    ensures now - at >= SECOND * (if k == 1 then 2 else if k == 2 then 4 else if k == 3 then 8
                                  else if k == 4 then 16 else if k == 5 then 32 else 60)
  {
    BackoffHolds(ordered, q, id, k, at, error, steps, now, skip);
  }

  /** The first claim of a row comes no earlier than the time the row was inserted for. */
  lemma FirstClaimWaits(ordered: bool, q: Queue, added: Table, id: Id, steps: seq<Step>, now: Instant, lease: int,
                        token: Id, skip: set<Id>)
    requires Enabled(ordered, q, Insert(added)) && id in added
    requires Run(ordered, Apply(ordered, q, Insert(added)), steps) && NeverClaims(steps, id)
    requires Enabled(ordered, After(ordered, Apply(ordered, q, Insert(added)), steps),
                     Claim(id, now, lease, token, skip))
    ensures added[id].availableAt <= now && id !in skip
  {
    WaitsUntilClaimed(ordered, Apply(ordered, q, Insert(added)), steps, id, added[id]);
  }

  // ---------------------------------------------------------------- bounded work and progress

  function Claims(steps: seq<Step>): nat {
    if steps == [] then 0 else (if steps[0].Claim? then 1 else 0) + Claims(steps[1..])
  }

  /** Every token recorded belongs to an issued claim. */
  predicate TokensIssued(q: Queue) {
    forall token | token in q.tokens :: var (id, i) := q.tokens[token];
      id in q.issued && 0 <= i < |q.issued[id]| && q.issued[id][i].token == token
  }

  lemma ApplyCounts(ordered: bool, q: Queue, s: Step)
    requires Inv(q) && TokensIssued(q) && Enabled(ordered, q, s)
    ensures TokensIssued(Apply(ordered, q, s))
    ensures |Apply(ordered, q, s).tokens| == |q.tokens| + if s.Claim? then 1 else 0
  {}

  lemma {:induction false} RunCounts(ordered: bool, q: Queue, steps: seq<Step>)
    requires Inv(q) && TokensIssued(q) && Run(ordered, q, steps)
    ensures var q' := After(ordered, q, steps);
      Inv(q') && TokensIssued(q') && |q'.tokens| == |q.tokens| + Claims(steps)
    decreases |steps|
  {
    if steps != [] {
      ApplyCounts(ordered, q, steps[0]);
      ApplyKeepsInv(ordered, q, steps[0]);
      RunCounts(ordered, Apply(ordered, q, steps[0]), steps[1..]);
    }
  }

  /** Distinct ranks below `n` number at most `n`. */
  lemma {:induction false} Pigeonhole(s: set<Id>, rank: map<Id, (Id, int)>, n: nat)
    requires s <= rank.Keys && forall x | x in s :: 0 <= rank[x].1 < n
    requires forall x, y | x in s && y in s && rank[x].1 == rank[y].1 :: x == y
    ensures |s| <= n
    decreases n
  {
    if s != {} {
      var some := Pick(s);
      assert 0 <= rank[some].1 < n;
      if x :| x in s && rank[x].1 == n - 1 {
        Pigeonhole(s - {x}, rank, n - 1);
      } else {
        Pigeonhole(s, rank, n - 1);
      }
    }
  }

  lemma {:induction false} TokensBound(q: Queue, ids: set<Id>, tokens: set<Id>)
    requires Inv(q) && TokensIssued(q) && tokens <= q.tokens.Keys
    requires forall token | token in tokens :: q.tokens[token].0 in ids
    ensures |tokens| <= MAX_ATTEMPTS * |ids|
    decreases ids
  {
    if tokens != {} {
      var some := Pick(tokens);
      var x := q.tokens[some].0;
      var mine := set token | token in tokens && q.tokens[token].0 == x;
      Pigeonhole(mine, q.tokens, MAX_ATTEMPTS);
      TokensBound(q, ids - {x}, tokens - mine);
      assert tokens == (tokens - mine) + mine;
    }
  }

  /** Over any run from an empty table, at most ten claims per row ever inserted. */
  lemma ClaimsBounded(ordered: bool, steps: seq<Step>)
    requires Run(ordered, EMPTY, steps)
    ensures Claims(steps) <= MAX_ATTEMPTS * |After(ordered, EMPTY, steps).issued|
  {
    RunCounts(ordered, EMPTY, steps);
    var q' := After(ordered, EMPTY, steps);
    TokensBound(q', q'.issued.Keys, q'.tokens.Keys);
  }

  /** A row nothing in its partition waits for. */
  predicate Head(t: Table, ordered: bool, id: Id) {
    id in t && t[id].completedAt.None? && (ordered ==> !Blocked(t, id))
  }

  /** If some head is unparked then, past every availability and lease time, a claim finds
      work; and it finds none only when every head is parked. */
  lemma Progress(t: Table, ordered: bool, now: Instant)
    requires forall id | id in t ::
      t[id].availableAt <= now && (t[id].lockedUntil.Some? ==> t[id].lockedUntil.value <= now)
    ensures (exists id | id in t :: IsCandidate(t, ordered, {}, now, id))
       <==> (exists id | id in t :: Head(t, ordered, id) && t[id].attempts < MAX_ATTEMPTS)
  {
    if id :| id in t && Head(t, ordered, id) && t[id].attempts < MAX_ATTEMPTS {
      var s := set o | o in t && Claimable(t, ordered, {}, now, o);
      assert id in s;
      var first := FirstOf(t, s);
      assert IsCandidate(t, ordered, {}, now, first);
    }
    if id :| id in t && IsCandidate(t, ordered, {}, now, id) {
      assert Head(t, ordered, id);
    }
  }

  /** The oldest unfinished row of a partition is its head, so a partition with unfinished
      work has one. */
  lemma PartitionHasHead(t: Table, id: Id) returns (head: Id)
    requires id in t && t[id].completedAt.None?
    ensures Head(t, true, head) && t[head].partition == t[id].partition
    ensures head == id || Before(t, head, id)
  {
    var s := set o | o in t && t[o].partition == t[id].partition && t[o].completedAt.None?;
    assert id in s;
    head := FirstOf(t, s);
    forall p | p in t ensures !Blocks(t, p, head) {
      if p in s { BeforeTotal(t, p, head); }
    }
  }

  lemma {:induction false} Pow2Mono(a: nat, b: nat)
    requires a <= b
    ensures Pow2(a) <= Pow2(b)
  {
    if a < b { Pow2Mono(a, b - 1); }
  }

  /** Backoff never shrinks with more attempts, and stays between one second and a minute. */
  lemma BackoffGrows(a: nat, b: nat)
    requires a <= b
    ensures SECOND <= RetryDelay(a) <= RetryDelay(b) <= 60 * SECOND
  {
    Pow2Mono(0, Min(a, 6));
    Pow2Mono(Min(a, 6), Min(b, 6));
  }
}
