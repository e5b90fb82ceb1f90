/** A run of one consumer in which a commit it gave up on lands late and moves the offset back. */
module LateCommits {
  import opened Common
  import opened Consumers

  ghost predicate Runs(log: Log, g: Group, steps: seq<GroupStep>)
    decreases |steps|
  {
    steps == [] || (CanGroup(log, g, steps[0]) && Runs(log, ApplyGroup(log, g, steps[0]), steps[1..]))
  }

  ghost function After(log: Log, g: Group, steps: seq<GroupStep>): Group
    requires Runs(log, g, steps)
    decreases |steps|
  {
    if steps == [] then g else After(log, ApplyGroup(log, g, steps[0]), steps[1..])
  }

  lemma {:induction false} RunExtends(log: Log, g: Group, steps: seq<GroupStep>, s: GroupStep)
    requires Runs(log, g, steps) && CanGroup(log, After(log, g, steps), s)
    ensures Runs(log, g, steps + [s])
    ensures After(log, g, steps + [s]) == ApplyGroup(log, After(log, g, steps), s)
    decreases |steps|
  {
    if steps != [] {
      RunExtends(log, ApplyGroup(log, g, steps[0]), steps[1..], s);
      assert (steps + [s])[1..] == steps[1..] + [s];
    } else {
      assert Runs(log, ApplyGroup(log, g, s), []) && [s][1..] == [];
    }
  }

  // ---------------------------------------------------------------- two records, one lost commit

  /** Partition 0 holds two records nobody can decode. */
  predicate TwoRecords(log: Log) { Records(log, 0) == [Undecodable, Undecodable] }

  /** The group while member 1 has read `read` records and committed up to `upTo`. */
  function Stage(read: nat, hand: Option<Phase>, upTo: nat, handled: nat, strays: set<Stray>): Group
    requires hand.Some? ==> read >= 1
  {
    var held := if hand.Some? then Some(Inflight(0, read - 1, 1, hand.value)) else None;
    Group(1, map[0 := 1], if upTo == 0 then map[] else map[0 := upTo],
          map[1 := Member(1, 1, true, {0}, map[0 := read], held)],
          set i | 0 <= i < handled :: (0, i), strays)
  }

  lemma Joined(log: Log) returns (steps: seq<GroupStep>)
    ensures Runs(log, NO_GROUP, steps) && After(log, NO_GROUP, steps) == Stage(0, None, 0, 0, {})
  {
    var g1 := ApplyGroup(log, NO_GROUP, Start(1));
    var g2 := ApplyGroup(log, g1, Rebalance(map[0 := 1]));
    var g3 := ApplyGroup(log, g2, Assign(1));
    steps := Extended(log, [], NO_GROUP, Start(1), g1);
    steps := Extended(log, steps, g1, Rebalance(map[0 := 1]), g2);
    steps := Extended(log, steps, g2, Assign(1), g3);
    assert g3.members[1] == Member(1, 1, true, {0}, map[0 := 0], None);
    assert g3.members == map[1 := g3.members[1]];
  }

  lemma Extended(log: Log, steps: seq<GroupStep>, g: Group, s: GroupStep, g': Group) returns (steps': seq<GroupStep>)
    requires Runs(log, NO_GROUP, steps) && After(log, NO_GROUP, steps) == g
    requires CanGroup(log, g, s) && ApplyGroup(log, g, s) == g'
    ensures steps' == steps + [s] && Runs(log, NO_GROUP, steps') && After(log, NO_GROUP, steps') == g'
  {
    RunExtends(log, NO_GROUP, steps, s);
    steps' := steps + [s];
  }

  lemma Taken(log: Log, read: nat, upTo: nat, strays: set<Stray>)
    requires TwoRecords(log) && read < 2
    ensures CanGroup(log, Stage(read, None, upTo, read, strays), Deliver(1, 0))
    ensures ApplyGroup(log, Stage(read, None, upTo, read, strays), Deliver(1, 0))
            == Stage(read + 1, Some(Ready), upTo, read, strays)
  {
    var g := Stage(read, None, upTo, read, strays);
    assert g.members[1].position[0 := read + 1] == map[0 := read + 1];
  }

  lemma Skipped(log: Log, read: nat, upTo: nat, handled: nat, strays: set<Stray>)
    requires TwoRecords(log) && 1 <= read <= 2 && read - 1 <= handled <= read
    ensures CanGroup(log, Stage(read, Some(Ready), upTo, handled, strays), Skip(1))
    ensures ApplyGroup(log, Stage(read, Some(Ready), upTo, handled, strays), Skip(1))
            == Stage(read, Some(Handled), upTo, read, strays)
  {
    var g := ApplyGroup(log, Stage(read, Some(Ready), upTo, handled, strays), Skip(1));
    assert g.done == set i | 0 <= i < read :: (0, i);
  }

  lemma Tried(log: Log, read: nat, upTo: nat, strays: set<Stray>)
    requires 1 <= read <= 2
    ensures CanGroup(log, Stage(read, Some(Handled), upTo, read, strays), TryCommit(1))
    ensures ApplyGroup(log, Stage(read, Some(Handled), upTo, read, strays), TryCommit(1))
            == Stage(read, Some(Committing(1)), upTo, read, strays)
  {}

  lemma Arrived(log: Log, read: nat, upTo: nat, strays: set<Stray>)
    requires 1 <= read <= 2
    ensures CanGroup(log, Stage(read, Some(Committing(1)), upTo, read, strays), CommitArrives(1, true))
    ensures ApplyGroup(log, Stage(read, Some(Committing(1)), upTo, read, strays), CommitArrives(1, true))
            == Stage(read, None, read, read, strays)
  {}

  lemma LostOne(log: Log)
    ensures CanGroup(log, Stage(1, Some(Committing(1)), 0, 1, {}), CommitLost(1))
    ensures ApplyGroup(log, Stage(1, Some(Committing(1)), 0, 1, {}), CommitLost(1))
            == Stage(1, Some(Ready), 0, 1, {Stray(1, 0, 0)})
  {}

  /** Skipping the record in hand and committing it. */
  lemma HandledAndCommitted(log: Log, steps: seq<GroupStep>, read: nat, upTo: nat, handled: nat, strays: set<Stray>)
    returns (steps': seq<GroupStep>)
    requires TwoRecords(log) && 1 <= read <= 2 && read - 1 <= handled <= read
    requires Runs(log, NO_GROUP, steps)
             && After(log, NO_GROUP, steps) == Stage(read, Some(Ready), upTo, handled, strays)
    ensures Runs(log, NO_GROUP, steps')
            && After(log, NO_GROUP, steps') == Stage(read, Some(Committing(1)), upTo, read, strays)
  {
    Skipped(log, read, upTo, handled, strays);
    Tried(log, read, upTo, strays);
    var skipped := Stage(read, Some(Handled), upTo, read, strays);
    steps' := Extended(log, steps, Stage(read, Some(Ready), upTo, handled, strays), Skip(1), skipped);
    steps' := Extended(log, steps', skipped, TryCommit(1), Stage(read, Some(Committing(1)), upTo, read, strays));
  }

  /** The first commit of record 0 is given up on. */
  lemma FirstTry(log: Log) returns (steps: seq<GroupStep>)
    requires TwoRecords(log)
    ensures Runs(log, NO_GROUP, steps) && After(log, NO_GROUP, steps) == Stage(1, Some(Ready), 0, 1, {Stray(1, 0, 0)})
  {
    steps := Joined(log);
    Taken(log, 0, 0, {});
    steps := Extended(log, steps, Stage(0, None, 0, 0, {}), Deliver(1, 0), Stage(1, Some(Ready), 0, 0, {}));
    steps := HandledAndCommitted(log, steps, 1, 0, 0, {});
    LostOne(log);
    steps := Extended(log, steps, Stage(1, Some(Committing(1)), 0, 1, {}), CommitLost(1),
                      Stage(1, Some(Ready), 0, 1, {Stray(1, 0, 0)}));
  }

  lemma BothCommitted(log: Log) returns (steps: seq<GroupStep>)
    requires TwoRecords(log)
    ensures Runs(log, NO_GROUP, steps) && After(log, NO_GROUP, steps) == Stage(2, None, 2, 2, {Stray(1, 0, 0)})
  {
    var late := {Stray(1, 0, 0)};
    steps := FirstTry(log);
    steps := HandledAndCommitted(log, steps, 1, 0, 1, late);
    Arrived(log, 1, 0, late);
    steps := Extended(log, steps, Stage(1, Some(Committing(1)), 0, 1, late), CommitArrives(1, true),
        Stage(1, None, 1, 1, late));
    Taken(log, 1, 1, late);
    steps := Extended(log, steps, Stage(1, None, 1, 1, late), Deliver(1, 0), Stage(2, Some(Ready), 1, 1, late));
    steps := HandledAndCommitted(log, steps, 2, 1, 1, late);
    Arrived(log, 2, 1, late);
    steps := Extended(log, steps, Stage(2, Some(Committing(1)), 1, 2, late), CommitArrives(1, true),
        Stage(2, None, 2, 2, late));
  }

  /** The commit of record 0 is lost, repeated, and followed by the commit of record 1; then the
      lost one lands, and the committed offset goes from 2 back to 1. */
  lemma LateCommitMovesBack(log: Log) returns (steps: seq<GroupStep>, late: GroupStep)
    requires TwoRecords(log)
    ensures late.LateCommit? && Runs(log, NO_GROUP, steps) && Runs(log, NO_GROUP, steps + [late])
    ensures Committed(After(log, NO_GROUP, steps), 0) == 2 && Committed(After(log, NO_GROUP, steps + [late]), 0) == 1
  {
    var g := Stage(2, None, 2, 2, {Stray(1, 0, 0)});
    steps := BothCommitted(log);
    late := LateCommit(Stray(1, 0, 0));
    RunExtends(log, NO_GROUP, steps, late);
  }
}
