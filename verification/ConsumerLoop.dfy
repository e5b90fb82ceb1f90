/** The Kafka consumer's loop for one record, while rebalances and other members interfere. */
module ConsumerLoop {
  import opened Common
  import opened Consumers

  /** What happens to one offset commit on its way. */
  datatype CommitFate = Acknowledged | AppliedButRaised | Lost

  /** One attempt at a record: what others do before it, during the handler, before the commit
      is sent and while it travels; whether the handler returns; and the fate of the commit. */
  datatype Attempt = Attempt(
    before: seq<GroupStep>, during: seq<GroupStep>, travelling: seq<GroupStep>, handled: bool, commit: CommitFate)

  datatype Ending = Finished | LetGo | StillTrying

  /** Moves this consumer does not make itself: the broker's and all other members', and its own
      callbacks. */
  predicate FromOutside(me: Id, s: GroupStep) { s.Rebalance? || s.LateCommit? || s.m != me || s.Revoke? || s.Assign? }

  /** No commit that anybody gave up on lands among these moves. */
  predicate Timely(steps: seq<GroupStep>) { forall s | s in steps :: !s.LateCommit? }

  predicate TimelyAttempt(a: Attempt) { Timely(a.before) && Timely(a.during) && Timely(a.travelling) }

  /** A schedule may name moves that are not possible; those do nothing. */
  function Interfered(log: Log, g: Group, me: Id, steps: seq<GroupStep>): Group {
    if steps == [] then g
    else
      var g' := Interfered(log, g, me, steps[..|steps| - 1]);
      Tried(log, g', me, steps[|steps| - 1])
  }

  function Tried(log: Log, g: Group, me: Id, s: GroupStep): Group {
    if FromOutside(me, s) && CanGroup(log, g, s) then ApplyGroup(log, g, s) else g
  }

  predicate Holds(g: Group, me: Id, part: Id, offset: nat, epoch: nat) {
    InPhase(g, me) && Held(g, me).part == part && Held(g, me).offset == offset && Held(g, me).epoch == epoch
  }

  /** Nothing that was achieved is lost: handled records stay handled, and, unless a commit given
      up on lands late, committed offsets never fall back. */
  ghost predicate Onward(g: Group, g': Group, timely: bool) {
    g.done <= g'.done && (timely ==> forall p :: Committed(g, p) <= Committed(g', p))
  }

  lemma OnwardTrans(a: Group, b: Group, c: Group, first: bool, second: bool)
    requires Onward(a, b, first) && Onward(b, c, second)
    ensures Onward(a, c, first && second)
  {}

  // ---------------------------------------------------------------- what an attempt lives through

  /** No rebalance among these moves: the broker stays in its generation. */
  predicate OneGeneration(steps: seq<GroupStep>) { forall s | s in steps :: !s.Rebalance? }

  /** What one attempt waits through before its commit is sent, and to its end. The handler runs
      on decoded records only, and only what was handled or skipped is committed. */
  function UntilSent(decoded: bool, a: Attempt): seq<GroupStep> { a.before + if decoded then a.during else [] }

  function UntilEnd(decoded: bool, a: Attempt): seq<GroupStep> {
    UntilSent(decoded, a) + if decoded && !a.handled then [] else a.travelling
  }

  function Past(decoded: bool, attempts: seq<Attempt>): seq<GroupStep> {
    if attempts == [] then []
    else Past(decoded, attempts[..|attempts| - 1]) + UntilEnd(decoded, attempts[|attempts| - 1])
  }

  /** The assignment is over when attempt `k` looks. */
  predicate OverAt(decoded: bool, me: Id, attempts: seq<Attempt>, k: nat)
    requires k < |attempts|
  {
    Revoke(me) in Past(decoded, attempts[..k]) + attempts[k].before
  }

  /** Attempt `k` ends with the record handled or skipped, the assignment not revoked before the
      commit is sent, and the commit acknowledged with no rebalance since the record was taken. */
  predicate Succeeds(decoded: bool, me: Id, attempts: seq<Attempt>, k: nat)
    requires k < |attempts|
  {
    && (decoded ==> attempts[k].handled) && attempts[k].commit.Acknowledged?
    && Revoke(me) !in Past(decoded, attempts[..k]) + UntilSent(decoded, attempts[k])
    && OneGeneration(Past(decoded, attempts[..k]) + UntilEnd(decoded, attempts[k]))
  }

  predicate IsCurrent(g: Group, me: Id, epoch: nat) { me in g.members && g.members[me].epoch == epoch }

  /** The assignment and the generation after `steps`: an assignment ends with a revocation and
      never returns, a generation with a rebalance. */
  predicate Tracks(g: Group, g': Group, me: Id, epoch: nat, steps: seq<GroupStep>) {
    && me in g.members && me in g'.members && g.gen <= g'.gen
    && (IsCurrent(g', me, epoch) <==> IsCurrent(g, me, epoch) && Revoke(me) !in steps)
    && (IsCurrent(g', me, epoch) ==>
          g'.members[me].gen == g.members[me].gen && (g'.gen == g.gen <==> OneGeneration(steps)))
  }

  lemma GenerationsJoin(first: seq<GroupStep>, second: seq<GroupStep>)
    ensures OneGeneration(first + second) <==> OneGeneration(first) && OneGeneration(second)
  {
    assert forall s :: s in first + second <==> s in first || s in second;
  }

  lemma TracksTrans(a: Group, b: Group, c: Group, me: Id, epoch: nat, first: seq<GroupStep>, second: seq<GroupStep>)
    requires Tracks(a, b, me, epoch, first) && Tracks(b, c, me, epoch, second)
    ensures Tracks(a, c, me, epoch, first + second)
  {
    GenerationsJoin(first, second);
  }

  lemma OutsiderTracks(log: Log, g: Group, me: Id, epoch: nat, s: GroupStep)
    requires InPhase(g, me) && HeldOk(log, g, me, g.members[me], Held(g, me)) && Held(g, me).epoch == epoch
    ensures Tracks(g, Tried(log, g, me, s), me, epoch, [s])
    ensures Tried(log, g, me, s).gen == g.gen + if s.Rebalance? then 1 else 0
  {}

  lemma OneMoreTracked(log: Log, g: Group, g': Group, me: Id, epoch: nat, steps: seq<GroupStep>, s: GroupStep)
    requires Tracks(g, g', me, epoch, steps) && (g'.gen == g.gen <==> OneGeneration(steps))
    requires InPhase(g', me) && HeldOk(log, g', me, g'.members[me], Held(g', me)) && Held(g', me).epoch == epoch
    ensures var g'' := Tried(log, g', me, s);
      Tracks(g, g'', me, epoch, steps + [s]) && (g''.gen == g.gen <==> OneGeneration(steps + [s]))
  {
    OutsiderTracks(log, g', me, epoch, s);
    TracksTrans(g, g', Tried(log, g', me, s), me, epoch, steps, [s]);
    GenerationsJoin(steps, [s]);
  }

  lemma DoneGrows(log: Log, g: Group, s: GroupStep)
    requires CanGroup(log, g, s)
    ensures g.done <= ApplyGroup(log, g, s).done
  {}

  lemma OutsiderLeavesRecord(log: Log, g: Group, me: Id, s: GroupStep)
    requires FromOutside(me, s) && CanGroup(log, g, s) && InPhase(g, me)
    ensures InPhase(ApplyGroup(log, g, s), me) && Held(ApplyGroup(log, g, s), me) == Held(g, me)
  {}

  /** Whatever others do meanwhile, the record in hand stays in hand, in the same phase. */
  lemma {:induction false} InterferenceKeeps(log: Log, g: Group, me: Id, steps: seq<GroupStep>)
    requires GroupInv(log, g) && InPhase(g, me)
    ensures var g' := Interfered(log, g, me, steps);
      GroupInv(log, g') && Onward(g, g', Timely(steps)) && InPhase(g', me) && Held(g', me) == Held(g, me)
    decreases |steps|
  {
    if steps != [] {
      var g', s := Interfered(log, g, me, steps[..|steps| - 1]), steps[|steps| - 1];
      assert s in steps && forall x | x in steps[..|steps| - 1] :: x in steps;
      InterferenceKeeps(log, g, me, steps[..|steps| - 1]);
      if FromOutside(me, s) && CanGroup(log, g', s) {
        GroupStepKeeps(log, g', s);
        DoneGrows(log, g', s);
        OutsiderLeavesRecord(log, g', me, s);
        OnwardTrans(g, g', ApplyGroup(log, g', s), Timely(steps[..|steps| - 1]), !s.LateCommit?);
      }
    }
  }

  /** The assignment ends with the first revocation, the generation with the first rebalance. */
  lemma {:induction false} InterferenceTracks(log: Log, g: Group, me: Id, epoch: nat, steps: seq<GroupStep>)
    requires GroupInv(log, g) && InPhase(g, me) && Held(g, me).epoch == epoch
    ensures var g' := Interfered(log, g, me, steps);
      Tracks(g, g', me, epoch, steps) && (g'.gen == g.gen <==> OneGeneration(steps))
    decreases |steps|
  {
    if steps != [] {
      var init, s := steps[..|steps| - 1], steps[|steps| - 1];
      var g' := Interfered(log, g, me, init);
      assert steps == init + [s];
      InterferenceKeeps(log, g, me, init);
      InterferenceTracks(log, g, me, epoch, init);
      assert MemberOk(log, g', me, g'.members[me]);
      OneMoreTracked(log, g, g', me, epoch, init, s);
    }
  }

  lemma OwnMoveTracks(log: Log, g: Group, me: Id, epoch: nat, s: GroupStep)
    requires CanGroup(log, g, s) && InPhase(g, me)
    requires s.Skip? || s.TryCommit? || s.CommitArrives? || s.CommitLost?
    ensures Tracks(g, ApplyGroup(log, g, s), me, epoch, [])
    ensures ApplyGroup(log, g, s).gen == g.gen
  {}

  lemma CommitTracks(a: Group, b: Group, c: Group, d: Group, me: Id, epoch: nat, steps: seq<GroupStep>)
    requires Tracks(a, b, me, epoch, []) && Tracks(b, c, me, epoch, steps) && Tracks(c, d, me, epoch, [])
    ensures Tracks(a, d, me, epoch, steps)
  {
    TracksTrans(a, b, c, me, epoch, [], steps);
    TracksTrans(a, c, d, me, epoch, steps, []);
    assert [] + steps == steps && steps + [] == steps;
  }

  /** What the call that handles and commits waits through. */
  function Waited(decoded: bool, a: Attempt): seq<GroupStep> {
    if !decoded then a.travelling else if a.handled then a.during + a.travelling else a.during
  }

  /** By attempt `n` none has succeeded and the assignment was not over when one looked. */
  predicate NotYet(decoded: bool, g: Group, g': Group, me: Id, epoch: nat, attempts: seq<Attempt>, n: nat)
    requires n <= |attempts|
  {
    && Tracks(g, g', me, epoch, Past(decoded, attempts[..n])) && g.members[me].gen <= g.gen
    && (forall k | 0 <= k < n ::
          !(IsCurrent(g, me, epoch) && g.members[me].gen == g.gen && Succeeds(decoded, me, attempts, k)))
    && (n > 0 ==> IsCurrent(g, me, epoch) && forall k | 0 <= k < n :: !OverAt(decoded, me, attempts, k))
  }

  /** A held record's epoch tells whether its partition is still assigned. */
  lemma AssignedIff(log: Log, g: Group, me: Id)
    requires GroupInv(log, g) && InPhase(g, me)
    ensures IsCurrent(g, me, Held(g, me).epoch) ==> Held(g, me).part in g.members[me].parts
  {
    assert MemberOk(log, g, me, g.members[me]);
  }

  lemma PastGrows(decoded: bool, attempts: seq<Attempt>, n: nat)
    requires n < |attempts|
    ensures Past(decoded, attempts[..n + 1])
         == Past(decoded, attempts[..n]) + attempts[n].before + Waited(decoded, attempts[n])
  {
    assert attempts[..n + 1][..n] == attempts[..n];
  }

  /** Whatever an attempt's moves hold, later ones come behind them. */
  lemma {:induction false} PastPrefix(decoded: bool, attempts: seq<Attempt>, m: nat, n: nat)
    requires m <= n <= |attempts|
    ensures Past(decoded, attempts[..m]) <= Past(decoded, attempts[..n])
    decreases n
  {
    if m < n {
      PastPrefix(decoded, attempts, m, n - 1);
      PastGrows(decoded, attempts, n - 1);
    }
  }

  lemma InPrefix(a: seq<GroupStep>, b: seq<GroupStep>, s: GroupStep)
    requires a <= b && s in a
    ensures s in b
  {}

  /** No attempt succeeds from the moment on at which the assignment is over. */
  lemma OverIsOver(decoded: bool, me: Id, attempts: seq<Attempt>, n: nat, k: nat)
    requires n <= k < |attempts| && OverAt(decoded, me, attempts, n)
    ensures !Succeeds(decoded, me, attempts, k)
  {
    var seen := Past(decoded, attempts[..n]) + attempts[n].before;
    var sent := Past(decoded, attempts[..k]) + UntilSent(decoded, attempts[k]);
    if n < k {
      PastGrows(decoded, attempts, n);
      PastPrefix(decoded, attempts, n + 1, k);
      assert seen <= Past(decoded, attempts[..k]);
    } else {
      assert sent == seen + if decoded then attempts[k].during else [];
    }
    InPrefix(seen, sent, Revoke(me));
  }

  lemma OverNow(decoded: bool, g: Group, g0: Group, g1: Group, me: Id, epoch: nat, attempts: seq<Attempt>, n: nat)
    requires n < |attempts| && NotYet(decoded, g, g0, me, epoch, attempts, n)
    requires Tracks(g0, g1, me, epoch, attempts[n].before) && !IsCurrent(g1, me, epoch)
    ensures IsCurrent(g, me, epoch) ==> OverAt(decoded, me, attempts, n)
    ensures !(IsCurrent(g, me, epoch) && g.members[me].gen == g.gen
              && exists k :: 0 <= k < |attempts| && Succeeds(decoded, me, attempts, k))
  {
    TracksTrans(g, g0, g1, me, epoch, Past(decoded, attempts[..n]), attempts[n].before);
    if IsCurrent(g, me, epoch) && g.members[me].gen == g.gen {
      forall k | n <= k < |attempts| ensures !Succeeds(decoded, me, attempts, k) {
        OverIsOver(decoded, me, attempts, n, k);
      }
    }
  }

  /** The generation is still the member's own exactly when it was at first and no rebalance came. */
  lemma StillInGeneration(g: Group, g1: Group, me: Id, epoch: nat, seen: seq<GroupStep>, more: seq<GroupStep>)
    requires Tracks(g, g1, me, epoch, seen) && g.members[me].gen <= g.gen && IsCurrent(g1, me, epoch)
    ensures g1.members[me].gen == g1.gen && OneGeneration(more)
       <==> g.members[me].gen == g.gen && OneGeneration(seen + more)
  {
    GenerationsJoin(seen, more);
  }

  /** Once its assignment is known to stand when it looks, the attempt succeeds exactly when the
      rest goes well. */
  lemma SucceedsIff(decoded: bool, me: Id, attempts: seq<Attempt>, n: nat)
    requires n < |attempts| && Revoke(me) !in Past(decoded, attempts[..n]) + attempts[n].before
    ensures var a := attempts[n];
      Succeeds(decoded, me, attempts, n) <==>
        && (decoded ==> a.handled && Revoke(me) !in a.during) && a.commit.Acknowledged?
        && OneGeneration(Past(decoded, attempts[..n]) + a.before + Waited(decoded, a))
  {
    var past, a := Past(decoded, attempts[..n]), attempts[n];
    assert past + UntilSent(decoded, a) == (past + a.before) + if decoded then a.during else [];
    assert (decoded ==> a.handled) ==> past + UntilEnd(decoded, a) == past + a.before + Waited(decoded, a);
  }

  /** One attempt made while still assigned succeeds exactly as said. */
  lemma ThisOne(decoded: bool, g: Group, g0: Group, g1: Group, me: Id, epoch: nat, attempts: seq<Attempt>, n: nat)
    requires n < |attempts| && NotYet(decoded, g, g0, me, epoch, attempts, n)
    requires Tracks(g0, g1, me, epoch, attempts[n].before) && IsCurrent(g1, me, epoch)
    ensures IsCurrent(g, me, epoch) && !OverAt(decoded, me, attempts, n)
    ensures var a := attempts[n];
      g.members[me].gen == g.gen && Succeeds(decoded, me, attempts, n) <==>
        && g1.members[me].gen == g1.gen && (decoded ==> a.handled && Revoke(me) !in a.during)
        && OneGeneration(Waited(decoded, a)) && a.commit.Acknowledged?
  {
    var past, a := Past(decoded, attempts[..n]), attempts[n];
    TracksTrans(g, g0, g1, me, epoch, past, a.before);
    StillInGeneration(g, g1, me, epoch, past + a.before, Waited(decoded, a));
    SucceedsIff(decoded, me, attempts, n);
  }

  /** An attempt that did not succeed leaves the rest to the next one. */
  lemma OnToNext(decoded: bool, g: Group, g0: Group, g1: Group, g2: Group, me: Id, epoch: nat,
                 attempts: seq<Attempt>, n: nat)
    requires n < |attempts| && NotYet(decoded, g, g0, me, epoch, attempts, n)
    requires Tracks(g0, g1, me, epoch, attempts[n].before) && Tracks(g1, g2, me, epoch, Waited(decoded, attempts[n]))
    requires IsCurrent(g, me, epoch) && !OverAt(decoded, me, attempts, n)
    requires !(g.members[me].gen == g.gen && Succeeds(decoded, me, attempts, n))
    ensures NotYet(decoded, g, g2, me, epoch, attempts, n + 1)
  {
    var past, a := Past(decoded, attempts[..n]), attempts[n];
    PastGrows(decoded, attempts, n);
    TracksTrans(g, g0, g1, me, epoch, past, a.before);
    TracksTrans(g, g1, g2, me, epoch, past + a.before, Waited(decoded, a));
  }

  /** How the attempts end the record: finished when one succeeds, let go when the assignment is
      over before that. */
  predicate Ends(decoded: bool, g: Group, me: Id, epoch: nat, attempts: seq<Attempt>, end: Ending) {
    && (end.Finished? <==> && IsCurrent(g, me, epoch) && g.members[me].gen == g.gen
                           && exists k :: 0 <= k < |attempts| && Succeeds(decoded, me, attempts, k))
    && (end.LetGo? <==> && !end.Finished? && attempts != []
                        && (IsCurrent(g, me, epoch) ==>
                              exists k :: 0 <= k < |attempts| && OverAt(decoded, me, attempts, k)))
  }

  lemma EndsHere(decoded: bool, g: Group, g0: Group, at: Group, g2: Group, me: Id, epoch: nat,
                 attempts: seq<Attempt>, n: nat, end: Ending)
    requires n < |attempts| && NotYet(decoded, g, g0, me, epoch, attempts, n)
    requires Tracks(g0, at, me, epoch, attempts[n].before) && (end.LetGo? <==> !IsCurrent(at, me, epoch))
    requires !end.LetGo? ==> Tracks(at, g2, me, epoch, Waited(decoded, attempts[n]))
    requires end.Finished? <==> && IsCurrent(at, me, epoch) && at.members[me].gen == at.gen
                                && (decoded ==> attempts[n].handled && Revoke(me) !in attempts[n].during)
                                && OneGeneration(Waited(decoded, attempts[n])) && attempts[n].commit.Acknowledged?
    ensures end.StillTrying? ==> NotYet(decoded, g, g2, me, epoch, attempts, n + 1)
    ensures !end.StillTrying? ==> Ends(decoded, g, me, epoch, attempts, end)
  {
    if end.LetGo? {
      OverNow(decoded, g, g0, at, me, epoch, attempts, n);
    } else {
      ThisOne(decoded, g, g0, at, me, epoch, attempts, n);
      if end.StillTrying? { OnToNext(decoded, g, g0, at, g2, me, epoch, attempts, n); }
    }
  }

  lemma MoveKeeps(log: Log, g: Group, s: GroupStep)
    requires GroupInv(log, g) && CanGroup(log, g, s)
    ensures GroupInv(log, ApplyGroup(log, g, s)) && Onward(g, ApplyGroup(log, g, s), !s.LateCommit?)
  {
    GroupStepKeeps(log, g, s);
    DoneGrows(log, g, s);
  }

  class KafkaEventConsumer {
    const me: Id
    const log: Log
    /** The broker and all members, this one among them. */
    var group: Group

    constructor (me: Id, log: Log, group: Group)
      ensures this.me == me && this.log == log && this.group == group
    {
      this.me, this.log, this.group := me, log, group;
    }

    predicate Holding(part: Id, offset: nat, epoch: nat)
      reads this
    {
      Holds(group, me, part, offset, epoch)
    }

    predicate StillAssigned(part: Id, epoch: nat)
      reads this
    {
      me in group.members && epoch == group.members[me].epoch && part in group.members[me].parts
    }

    method OnPartitionsRevoked()
      requires me in group.members
      modifies this
      ensures group == ApplyGroup(log, old(group), Revoke(me))
    {
      var self := group.members[me];
      group := group.(members := group.members[me := self.(epoch := self.epoch + 1, joined := false)]);
    }

    method Wait(steps: seq<GroupStep>)
      requires GroupInv(log, group) && InPhase(group, me)
      modifies this
      ensures group == Interfered(log, old(group), me, steps)
      ensures GroupInv(log, group) && Onward(old(group), group, Timely(steps)) && InPhase(group, me)
              && Held(group, me) == Held(old(group), me)
      ensures Tracks(old(group), group, me, Held(group, me).epoch, steps)
      ensures group.gen == old(group.gen) <==> OneGeneration(steps)
    {
      InterferenceKeeps(log, group, me, steps);
      InterferenceTracks(log, group, me, Held(group, me).epoch, steps);
      group := Interfered(log, group, me, steps);
    }

    method Move(s: GroupStep)
      requires GroupInv(log, group) && CanGroup(log, group, s)
      modifies this
      ensures group == ApplyGroup(log, old(group), s) && GroupInv(log, group)
              && Onward(old(group), group, !s.LateCommit?)
    {
      MoveKeeps(log, group, s);
      group := ApplyGroup(log, group, s);
    }

    /** The broker's answer. The commit is applied, whether the sender hears of it or not, exactly
        in the generation it was made in. */
    method Answer(fate: CommitFate) returns (ok: bool)
      requires GroupInv(log, group) && InPhase(group, me) && Held(group, me).phase.Committing?
      modifies this
      ensures GroupInv(log, group) && Onward(old(group), group, true)
      ensures ok <==> fate.Acknowledged? && Held(old(group), me).phase.gen == old(group).gen
      ensures Tracks(old(group), group, me, Held(old(group), me).epoch, [])
      ensures ok ==> group.members[me].inflight.None?
      ensures !ok ==> InPhase(group, me) && Held(group, me) == Held(old(group), me).(phase := Ready)
      ensures var f := Held(old(group), me);
        forall p :: Committed(group, p) == if !fate.Lost? && f.phase.gen == old(group).gen && p == f.part
                                           then f.offset + 1 else Committed(old(group), p)
    {
      ok := fate.Acknowledged? && Held(group, me).phase.gen == group.gen;
      ghost var s := if ok then CommitArrives(me, true)
                     else if fate.AppliedButRaised? then CommitArrives(me, false) else CommitLost(me);
      OwnMoveTracks(log, group, me, Held(group, me).epoch, s);
      if ok {
        Move(CommitArrives(me, true));
      } else if fate.AppliedButRaised? {
        Move(CommitArrives(me, false));
      } else {
        Move(CommitLost(me));
      }
    }

    /** Commits the record's offset; false is an exception. It succeeds exactly when the epoch is
        still the member's, the member has joined the broker's generation, no rebalance overtakes
        the commit, and the broker's acknowledgement comes back. */
    method Commit(part: Id, offset: nat, epoch: nat, a: Attempt) returns (ok: bool)
      requires GroupInv(log, group) && Holding(part, offset, epoch) && Held(group, me).phase.Handled?
      modifies this
      ensures GroupInv(log, group) && Onward(old(group), group, Timely(a.travelling))
      ensures ok <==> && IsCurrent(old(group), me, epoch) && old(group).members[me].gen == old(group).gen
                      && OneGeneration(a.travelling) && a.commit.Acknowledged?
      ensures ok ==> me in group.members && group.members[me].inflight.None? && Committed(group, part) == offset + 1
      ensures !ok ==> Holding(part, offset, epoch) && Held(group, me).phase.Ready?
      ensures Tracks(old(group), group, me, epoch, a.travelling)
      ensures old(group).members[me].epoch != epoch ==> forall p :: Committed(group, p) == Committed(old(group), p)
      ensures (&& IsCurrent(old(group), me, epoch) && old(group).members[me].gen == old(group).gen
               && OneGeneration(a.travelling) && !a.commit.Lost?) ==>
        Committed(group, part) == offset + 1
    {
      var current := epoch == group.members[me].epoch;
      OwnMoveTracks(log, group, me, epoch, TryCommit(me));
      Move(TryCommit(me));
      if !current { return false; }
      ghost var g1 := group;
      Wait(a.travelling);
      ghost var g2 := group;
      OnwardTrans(old(group), g1, g2, true, Timely(a.travelling));
      ok := Answer(a.commit);
      OnwardTrans(old(group), g2, group, Timely(a.travelling), true);
      CommitTracks(old(group), g1, g2, group, me, epoch, a.travelling);
    }

    /** Runs the handler on a decodable record, skips any other, then commits. True exactly when
        the record was handled or skipped and its commit succeeded as above; a skipped or handled
        record counts as done whatever becomes of its commit. */
    method HandleMessage(part: Id, offset: nat, epoch: nat, a: Attempt) returns (ok: bool)
      requires GroupInv(log, group) && Holding(part, offset, epoch) && Held(group, me).phase.Ready?
      requires offset < |Records(log, part)|
      modifies this
      ensures GroupInv(log, group) && Onward(old(group), group, TimelyAttempt(a))
      ensures var decoded := Records(log, part)[offset].Decoded?;
        && (ok <==> IsCurrent(old(group), me, epoch) && old(group).members[me].gen == old(group).gen
                    && (decoded ==> a.handled && Revoke(me) !in a.during)
                    && OneGeneration(Waited(decoded, a)) && a.commit.Acknowledged?)
        && ((decoded ==> a.handled) ==> (part, offset) in group.done)
        && Tracks(old(group), group, me, epoch, Waited(decoded, a))
      ensures ok ==> me in group.members && group.members[me].inflight.None? && Committed(group, part) == offset + 1
      ensures !ok ==> Holding(part, offset, epoch) && Held(group, me).phase.Ready?
    {
      if !Records(log, part)[offset].Decoded? {
        OwnMoveTracks(log, group, me, epoch, Skip(me));
        Move(Skip(me));
        ghost var g1 := group;
        ok := Commit(part, offset, epoch, a);
        OnwardTrans(old(group), g1, group, true, Timely(a.travelling));
        TracksTrans(old(group), g1, group, me, epoch, [], a.travelling);
        return;
      }
      Wait(a.during);
      if !a.handled { return false; }
      ghost var g1 := group;
      FinishKeeps(log, group, me);
      group := Finish(group, me);
      ghost var g2 := group;
      OnwardTrans(old(group), g1, g2, Timely(a.during), true);
      TracksTrans(old(group), g1, g2, me, epoch, a.during, []);
      GenerationsJoin(a.during, a.travelling);
      ok := Commit(part, offset, epoch, a);
      OnwardTrans(old(group), g2, group, Timely(a.during), Timely(a.travelling));
      TracksTrans(old(group), g2, group, me, epoch, a.during, a.travelling);
    }

    /** One round of the inner loop; `at` is what it finds when it looks at its assignment. */
    method TryOnce(part: Id, offset: nat, epoch: nat, a: Attempt) returns (end: Ending, ghost at: Group)
      requires GroupInv(log, group) && Holding(part, offset, epoch) && Held(group, me).phase.Ready?
      requires offset < |Records(log, part)|
      modifies this
      ensures GroupInv(log, group) && Onward(old(group), group, TimelyAttempt(a))
      ensures Tracks(old(group), at, me, epoch, a.before) && (end.LetGo? <==> !IsCurrent(at, me, epoch))
      ensures var decoded := Records(log, part)[offset].Decoded?;
        && (end.Finished? <==> IsCurrent(at, me, epoch) && at.members[me].gen == at.gen
                               && (decoded ==> a.handled && Revoke(me) !in a.during)
                               && OneGeneration(Waited(decoded, a)) && a.commit.Acknowledged?)
        && (!end.LetGo? ==> Tracks(at, group, me, epoch, Waited(decoded, a)))
      ensures end.Finished? ==> Committed(group, part) == offset + 1 && (part, offset) in group.done
      ensures end.LetGo? ==> me in group.members && !StillAssigned(part, epoch)
      ensures !end.StillTrying? ==> me in group.members && group.members[me].inflight.None?
      ensures end.StillTrying? ==> Holding(part, offset, epoch) && Held(group, me).phase.Ready?
    {
      Wait(a.before);
      at := group;
      AssignedIff(log, group, me);
      if !StillAssigned(part, epoch) {
        Move(Abandon(me));
        OnwardTrans(old(group), at, group, Timely(a.before), true);
        return LetGo, at;
      }
      var ok := HandleMessage(part, offset, epoch, a);
      OnwardTrans(old(group), at, group, Timely(a.before), TimelyAttempt(a));
      end := if ok then Finished else StillTrying;
    }

    /** The inner loop: holds one record until an attempt succeeds, or until this assignment is
        over; each exactly when the attempts say so. Attempts beyond the given ones are still to
        come. */
    method HoldRecord(part: Id, offset: nat, epoch: nat, attempts: seq<Attempt>) returns (end: Ending)
      requires GroupInv(log, group) && Holding(part, offset, epoch) && Held(group, me).phase.Ready?
      requires offset < |Records(log, part)|
      modifies this
      ensures GroupInv(log, group) && Onward(old(group), group, forall a | a in attempts :: TimelyAttempt(a))
      ensures Ends(Records(log, part)[offset].Decoded?, old(group), me, epoch, attempts, end)
      ensures end.Finished? ==> Committed(group, part) == offset + 1 && (part, offset) in group.done
      ensures end.LetGo? ==> me in group.members && !StillAssigned(part, epoch)
      ensures !end.StillTrying? ==> me in group.members && group.members[me].inflight.None?
      ensures end.StillTrying? ==> Holding(part, offset, epoch)
    {
      ghost var decoded := Records(log, part)[offset].Decoded?;
      ghost var timely := forall a | a in attempts :: TimelyAttempt(a);
      var n := 0;
      while n < |attempts|
        invariant n <= |attempts| && GroupInv(log, group) && Onward(old(group), group, timely)
        invariant Holding(part, offset, epoch) && Held(group, me).phase.Ready?
        invariant NotYet(decoded, old(group), group, me, epoch, attempts, n)
      {
        assert timely ==> TimelyAttempt(attempts[n]);
        ghost var g0 := group;
        ghost var at: Group;
        end, at := TryOnce(part, offset, epoch, attempts[n]);
        OnwardTrans(old(group), g0, group, timely, TimelyAttempt(attempts[n]));
        EndsHere(decoded, old(group), g0, at, group, me, epoch, attempts, n, end);
        if !end.StillTrying? { return; }
        n := n + 1;
      }
      end := StillTrying;
    }
  }
}
