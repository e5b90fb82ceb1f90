/** The outbox order: per partition, rows are claimed and completed in `(created_at, id)` order. */
module Fifo {
  import opened Common
  import opened Work
  import opened Leases

  /** Whoever has ever been claimed has only finished rows before it in its partition. */
  ghost predicate Ordered(t: Table) {
    forall p, r | p in t && r in t && t[p].partition == t[r].partition && Before(t, p, r) && t[r].attempts > 0
      :: t[p].completedAt.Some?
  }

  /** No new row sorts before an already claimed row of its partition. */
  ghost predicate AppendsInOrder(t: Table, added: Table) {
    forall n, r | n in added && r in t && added[n].partition == t[r].partition && t[r].attempts > 0
      :: !Before(t + added, n, r)
  }

  ghost predicate OrderedInserts(t: Table, s: Step) {
    s.Insert? ==> AppendsInOrder(t, s.added)
  }

  /** Exactly which inserts keep the order: the code does not enforce this, because
      `created_at` is stamped by each worker before its transaction commits. */
  lemma InsertKeepsOrderIff(q: Queue, s: Step)
    requires Inv(q) && Ordered(q.rows) && s.Insert? && Enabled(true, q, s)
    ensures Ordered(Apply(true, q, s).rows) <==> AppendsInOrder(q.rows, s.added)
  {
    var t, t' := q.rows, Apply(true, q, s).rows;
    if Ordered(t') {
      forall n, r | n in s.added && r in t && s.added[n].partition == t[r].partition && t[r].attempts > 0
        ensures !Before(t + s.added, n, r)
      {
        assert t'[n] == s.added[n] && t'[r] == t[r];
      }
    } else {
      var p, r :| p in t' && r in t' && t'[p].partition == t'[r].partition && Before(t', p, r)
        && t'[r].attempts > 0 && !t'[p].completedAt.Some?;
      assert r in t && t'[r] == t[r];
      if p in t { assert Before(t, p, r); }
    }
  }

  /** Two workers stamp rows 1 and 2 of one partition in that order and commit them in the
      other: the later row is claimed first. */
  lemma ConcurrentInsertsReorder()
    ensures exists steps: seq<Step> :: Run(true, EMPTY, steps) && !Ordered(After(true, EMPTY, steps).rows)
  {
    var early := Row(7, 10, 0, 10, None, None, None, None);
    var late := Row(7, 20, 0, 20, None, None, None, None);
    var s0 := Insert(map[2 := late]);
    var s1 := Claim(2, 30, LEASE, 99, {});
    var s2 := Insert(map[1 := early]);
    var q1 := Apply(true, EMPTY, s0);
    assert q1.rows == map[2 := late];
    assert IsCandidate(q1.rows, true, {}, 30, 2);
    var q2 := Apply(true, q1, s1);
    var q3 := Apply(true, q2, s2);
    assert Before(q3.rows, 1, 2) && q3.rows[2].attempts == 1 && q3.rows[1].completedAt.None?;
    assert !Ordered(q3.rows);
    var steps := [s0, s1, s2];
    assert steps[1..] == [s1, s2] && [s1, s2][1..] == [s2] && [s2][1..] == [];
    assert Run(true, q3, []);
    assert Run(true, q2, [s2]);
    assert Run(true, q1, [s1, s2]);
    assert Run(true, EMPTY, steps);
    assert After(true, q2, [s2]) == q3;
    assert After(true, q1, [s1, s2]) == q3;
    assert After(true, EMPTY, steps) == q3;
  }

  lemma ApplyKeepsOrder(q: Queue, s: Step)
    requires Inv(q) && Ordered(q.rows) && Enabled(true, q, s) && OrderedInserts(q.rows, s)
    ensures Ordered(Apply(true, q, s).rows)
  {
    var t, t' := q.rows, Apply(true, q, s).rows;
    if s.Insert? {
      InsertKeepsOrderIff(q, s);
    } else {
      forall p, r | p in t' && r in t' && t'[p].partition == t'[r].partition && Before(t', p, r) && t'[r].attempts > 0
        ensures t'[p].completedAt.Some?
      {
        assert Before(t, p, r) && t[p].partition == t[r].partition;
        if s.Claim? && r == s.id { ClaimedIsUnblocked(q, s, p); }
      }
    }
  }

  ghost predicate OrderedRun(q: Queue, steps: seq<Step>)
    decreases |steps|
  {
    steps == [] || (Enabled(true, q, steps[0]) && OrderedInserts(q.rows, steps[0])
                    && OrderedRun(Apply(true, q, steps[0]), steps[1..]))
  }

  lemma {:induction false} RunKeepsOrder(q: Queue, steps: seq<Step>)
    requires Inv(q) && Ordered(q.rows) && OrderedRun(q, steps)
    ensures Run(true, q, steps) && Ordered(After(true, q, steps).rows)
    decreases |steps|
  {
    if steps != [] {
      ApplyKeepsInv(true, q, steps[0]);
      ApplyKeepsOrder(q, steps[0]);
      RunKeepsOrder(Apply(true, q, steps[0]), steps[1..]);
    }
  }

  /** In every reachable table of an ordered run: finished rows are a prefix of their partition,
      a leased row has every predecessor finished, and a partition has at most one lease. */
  lemma OutboxFifo(steps: seq<Step>, a: Id, b: Id)
    requires OrderedRun(EMPTY, steps) && Run(true, EMPTY, steps)
    requires var t := After(true, EMPTY, steps).rows; a in t && b in t && t[a].partition == t[b].partition
    ensures var t := After(true, EMPTY, steps).rows;
      && (Before(t, a, b) && (t[b].completedAt.Some? || t[b].lockToken.Some?) ==>
            t[a].completedAt.Some? && t[a].lockToken.None?)
      && (t[a].lockToken.Some? && t[b].lockToken.Some? ==> a == b)
  {
    var q := After(true, EMPTY, steps);
    RunKeepsOrder(EMPTY, steps);
    RunKeeps(true, EMPTY, steps);
    BeforeTotal(q.rows, a, b);
    assert RowMatches(q.rows[a], q.issued[a]) && RowMatches(q.rows[b], q.issued[b]);
  }

  /** At claim time every predecessor is finished, whatever order rows were inserted in. */
  lemma ClaimedIsUnblocked(q: Queue, s: Step, p: Id)
    requires s.Claim? && Enabled(true, q, s) && p in q.rows
    ensures q.rows[p].partition == q.rows[s.id].partition && Before(q.rows, p, s.id) ==> q.rows[p].completedAt.Some?
  {
    assert !Blocks(q.rows, p, s.id);
  }

  lemma StepSparesBlocked(q: Queue, s: Step, p: Id, r: Id)
    requires Inv(q) && Enabled(true, q, s)
    requires p in q.rows && r in q.rows && q.rows[p].partition == q.rows[r].partition && Before(q.rows, p, r)
    requires q.rows[p].completedAt.None?
    requires var t := Apply(true, q, s).rows; p in t && r in t
    ensures var t := Apply(true, q, s).rows;
      t[p].partition == t[r].partition && Before(t, p, r) && t[r].attempts == q.rows[r].attempts
  {
    if s.Claim? { ClaimedIsUnblocked(q, s, p); }
  }

  /** Needs no insertion hypothesis: while a row stays unfinished, no later row of its partition
      is claimed. A parked row therefore stops its partition. */
  lemma {:induction false} UnfinishedStopsLaterRows(q: Queue, steps: seq<Step>, p: Id, r: Id)
    requires Inv(q) && Run(true, q, steps)
    requires p in q.rows && r in q.rows && q.rows[p].partition == q.rows[r].partition && Before(q.rows, p, r)
    requires var t := After(true, q, steps).rows; p in t && t[p].completedAt.None? && r in t
    ensures After(true, q, steps).rows[r].attempts == q.rows[r].attempts
    decreases |steps|
  {
    if steps != [] {
      var q1 := Apply(true, q, steps[0]);
      RunKeeps(true, q, steps);
      ApplyKeepsInv(true, q, steps[0]);
      RunKeeps(true, q1, steps[1..]);
      ApplyLater(true, q, steps[0]);
      assert p in q1.rows && r in q1.rows;
      StepSparesBlocked(q, steps[0], p, r);
      UnfinishedStopsLaterRows(q1, steps[1..], p, r);
    }
  }
}
