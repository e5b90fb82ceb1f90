/** A consumer group over one topic: in-flight records, assignment epochs, offset commits. */
module Consumers {
  import opened Common
  import opened Store

  /** What a record's bytes turn into: everything but `Decoded` is skipped without a handler. */
  datatype Message = Undecodable | NotAnObject | InvalidEvent | UnknownType | Decoded(id: Id, event: Event)

  type Log = map<Id, seq<Message>>

  function Records(log: Log, p: Id): seq<Message> { if p in log then log[p] else [] }

  /** Where a record is: not being handled, being handled (the alerts still to deliver, those
      seen stored, and whether the first of them was sent), handled, or being committed. */
  datatype Phase =
    | Ready
    | Running(todo: seq<Id>, seen: set<Id>, sent: bool)
    | Handled
    | Committing(gen: nat)

  datatype Inflight = Inflight(part: Id, offset: nat, epoch: nat, phase: Phase)

  datatype Member = Member(
    epoch: nat, gen: nat, joined: bool, parts: set<Id>, position: map<Id, nat>, inflight: Option<Inflight>)

  /** An offset commit its sender has given up on; it may still be on its way. */
  datatype Stray = Stray(gen: nat, part: Id, offset: nat)

  /** `done` records, for every partition and offset, that the record was once handled to the
      end or was unprocessable. */
  datatype Group = Group(
    gen: nat, owner: map<Id, Id>, committed: map<Id, nat>, members: map<Id, Member>, done: set<(Id, nat)>,
    strays: set<Stray>)

  const NO_GROUP: Group := Group(0, map[], map[], map[], {}, {})

  function Committed(g: Group, p: Id): nat { if p in g.committed then g.committed[p] else 0 }

  datatype GroupStep =
    | Start(m: Id)
    | Crash(m: Id)
    | Revoke(m: Id)
    | Rebalance(owner: map<Id, Id>)
    | Assign(m: Id)
    | Deliver(m: Id, part: Id)
    | Skip(m: Id)
    | TryCommit(m: Id)
    | CommitArrives(m: Id, acknowledged: bool)
    | CommitLost(m: Id)
    | Abandon(m: Id)
    | LateCommit(stray: Stray)

  predicate InPhase(g: Group, m: Id) { m in g.members && g.members[m].inflight.Some? }

  function Held(g: Group, m: Id): Inflight
    requires InPhase(g, m)
  {
    g.members[m].inflight.value
  }

  predicate CanGroup(log: Log, g: Group, s: GroupStep) {
    match s
    case Start(m) => m !in g.members
    case Crash(m) => m in g.members
    case Revoke(m) => m in g.members
    case Rebalance(_) => true
    case Assign(m) => m in g.members && !g.members[m].joined && g.members[m].gen < g.gen
    case Deliver(m, p) =>
      m in g.members && var c := g.members[m];
      c.joined && c.inflight.None? && p in c.parts && p in c.position && c.position[p] < |Records(log, p)|
    case Skip(m) =>
      InPhase(g, m) && var f := Held(g, m);
      f.phase.Ready? && f.offset < |Records(log, f.part)| && !Records(log, f.part)[f.offset].Decoded?
    case TryCommit(m) => InPhase(g, m) && Held(g, m).phase.Handled?
    case CommitArrives(m, acknowledged) =>
      InPhase(g, m) && Held(g, m).phase.Committing? && (acknowledged ==> Held(g, m).phase.gen == g.gen)
    case CommitLost(m) => InPhase(g, m) && Held(g, m).phase.Committing?
    case Abandon(m) =>
      InPhase(g, m) && var f := Held(g, m);
      f.phase.Ready? && !(f.epoch == g.members[m].epoch && f.part in g.members[m].parts)
    case LateCommit(stray) => stray in g.strays
  }

  function WithInflight(g: Group, m: Id, f: Option<Inflight>): Group
    requires m in g.members
  {
    g.(members := g.members[m := g.members[m].(inflight := f)])
  }

  function WithPhase(g: Group, m: Id, phase: Phase): Group
    requires InPhase(g, m)
  {
    WithInflight(g, m, Some(Held(g, m).(phase := phase)))
  }

  function Finish(g: Group, m: Id): Group
    requires InPhase(g, m)
  {
    WithPhase(g, m, Handled).(done := g.done + {(Held(g, m).part, Held(g, m).offset)})
  }

  /** A commit is applied exactly when the broker still is in the generation it was made in. */
  function CommitAt(g: Group, m: Id): Group
    requires InPhase(g, m) && Held(g, m).phase.Committing?
  {
    var f := Held(g, m);
    if f.phase.gen == g.gen then g.(committed := g.committed[f.part := f.offset + 1]) else g
  }

  /** The commit `m` is waiting for, if any: it outlives the wait. */
  function GivenUp(g: Group, m: Id): set<Stray> {
    if InPhase(g, m) && Held(g, m).phase.Committing?
    then {Stray(Held(g, m).phase.gen, Held(g, m).part, Held(g, m).offset)} else {}
  }

  function Land(g: Group, stray: Stray): Group {
    var g' := g.(strays := g.strays - {stray});
    if stray.gen == g.gen then g'.(committed := g.committed[stray.part := stray.offset + 1]) else g'
  }

  function ApplyGroup(log: Log, g: Group, s: GroupStep): Group
    requires CanGroup(log, g, s)
  {
    match s
    case Start(m) => g.(members := g.members[m := Member(0, g.gen, false, {}, map[], None)])
    case Crash(m) => g.(members := g.members - {m}, strays := g.strays + GivenUp(g, m))
    case Revoke(m) => g.(members := g.members[m := g.members[m].(epoch := g.members[m].epoch + 1, joined := false)])
    case Rebalance(owner) => g.(gen := g.gen + 1, owner := owner)
    case Assign(m) =>
      var mine := set p | p in g.owner && g.owner[p] == m;
      g.(members := g.members[m := g.members[m].(
            epoch := g.members[m].epoch + 1, gen := g.gen, joined := true, parts := mine,
            position := map p | p in mine :: Committed(g, p))])
    case Deliver(m, p) =>
      var c := g.members[m];
      var at := c.position[p];
      g.(members := g.members[m := c.(position := c.position[p := at + 1],
                                      inflight := Some(Inflight(p, at, c.epoch, Ready)))])
    case Skip(m) => Finish(g, m)
    case TryCommit(m) =>
      WithPhase(g, m, if Held(g, m).epoch == g.members[m].epoch then Committing(g.members[m].gen) else Ready)
    case CommitArrives(m, acknowledged) =>
      if acknowledged then WithInflight(CommitAt(g, m), m, None) else WithPhase(CommitAt(g, m), m, Ready)
    case CommitLost(m) => WithPhase(g, m, Ready).(strays := g.strays + GivenUp(g, m))
    case Abandon(m) => WithInflight(g, m, None)
    case LateCommit(stray) => Land(g, stray)
  }

  // ---------------------------------------------------------------- the invariant

  /** The record a member is working on under its current assignment. */
  predicate Works(c: Member, p: Id) {
    c.inflight.Some? && c.inflight.value.part == p && c.inflight.value.epoch == c.epoch
  }

  predicate Current(g: Group, c: Member) { c.joined && c.gen == g.gen }

  predicate DoneBelow(g: Group, p: Id, n: nat) { forall i | 0 <= i < n :: (p, i) in g.done }

  /** What no commit of the current generation exceeds: how far the member has read. */
  function Upper(c: Member, p: Id): nat
    requires p in c.position
  {
    if Works(c, p) then c.inflight.value.offset + 1 else c.position[p]
  }

  /** Commits of the current generation that are on their way behind `n`. */
  predicate StraysBelow(g: Group, p: Id, n: nat) {
    forall s | s in g.strays && s.gen == g.gen && s.part == p :: s.offset + 1 <= n
  }

  /** A commit on its way is for a handled record with only handled ones before it; in its own
      generation nothing further has been committed. */
  predicate CommitOk(g: Group, m: Id, c: Member, f: Inflight)
    requires f.phase.Committing?
  {
    && DoneBelow(g, f.part, f.offset + 1)
    && f.phase.gen <= c.gen
    && (f.epoch < c.epoch && c.joined ==> f.phase.gen < c.gen)
    && (f.phase.gen == g.gen ==>
          && f.part in g.owner && g.owner[f.part] == m
          && Committed(g, f.part) <= f.offset + 1 && StraysBelow(g, f.part, f.offset + 1))
  }

  /** Facts about a member's record in hand. */
  predicate HeldOk(log: Log, g: Group, m: Id, c: Member, f: Inflight) {
    && f.offset < |Records(log, f.part)|
    && f.epoch <= c.epoch
    && (f.epoch == c.epoch ==> c.joined && f.part in c.parts)
    && (f.phase.Handled? ==> (f.part, f.offset) in g.done)
    && (f.phase.Committing? ==> CommitOk(g, m, c, f))
  }

  /** An assigned member has handled all it has read, but for the one record in its hands. */
  predicate ReadOk(g: Group, c: Member) {
    c.joined ==> forall p | p in c.parts ::
      && p in c.position
      && (Works(c, p) ==> c.position[p] == c.inflight.value.offset + 1)
      && DoneBelow(g, p, if Works(c, p) then c.inflight.value.offset else c.position[p])
  }

  /** Under the current generation nothing beyond what it has read is or will be committed. */
  predicate BoundOk(g: Group, m: Id, c: Member) {
    Current(g, c) ==> forall p | p in c.parts ::
      && p in c.position && p in g.owner && g.owner[p] == m
      && Committed(g, p) <= Upper(c, p) && StraysBelow(g, p, Upper(c, p))
  }

  predicate MemberOk(log: Log, g: Group, m: Id, c: Member) {
    && c.gen <= g.gen
    && (c.inflight.Some? ==> HeldOk(log, g, m, c, c.inflight.value))
    && ReadOk(g, c) && BoundOk(g, m, c)
  }

  /** A stray commit of the current generation comes from the partition's owner, who has been in
      that generation. */
  predicate StrayOk(g: Group, s: Stray) {
    && s.gen <= g.gen && DoneBelow(g, s.part, s.offset + 1)
    && (s.gen == g.gen ==>
          s.part in g.owner && (g.owner[s.part] in g.members ==> g.members[g.owner[s.part]].gen == g.gen))
  }

  predicate GroupInv(log: Log, g: Group) {
    && (forall m | m in g.members :: MemberOk(log, g, m, g.members[m]))
    && (forall p | p in g.committed :: DoneBelow(g, p, g.committed[p]))
    && (forall s | s in g.strays :: StrayOk(g, s))
  }

  // ---------------------------------------------------------------- every step keeps it

  /** Other members' facts survive a change that leaves the broker alone, with `done` growing
      and new strays only from the owner of their partition. */
  lemma OthersKept(log: Log, g: Group, g': Group, m: Id, c: Member)
    requires MemberOk(log, g, m, c)
    requires g'.gen == g.gen && g'.owner == g.owner && g'.committed == g.committed && g.done <= g'.done
    requires forall s | s in g'.strays && s !in g.strays && s.gen == g.gen ::
               s.part in g.owner && g.owner[s.part] != m
    ensures MemberOk(log, g', m, c)
  {}

  lemma StraysKept(g: Group, g': Group)
    requires g'.gen == g.gen && g'.owner == g.owner && g.done <= g'.done
    requires forall m | m in g'.members && (m !in g.members || g'.members[m].gen != g.members[m].gen) ::
               g'.members[m].gen == g.gen
    requires forall s | s in g.strays :: StrayOk(g, s)
    ensures forall s | s in g.strays :: StrayOk(g', s)
  {
    forall s | s in g.strays ensures StrayOk(g', s) {
      assert StrayOk(g, s);
      if s.gen == g.gen && g.owner[s.part] in g'.members {
        var o := g.owner[s.part];
        assert o in g'.members && (o !in g.members || g'.members[o].gen != g.members[o].gen) ==>
          g'.members[o].gen == g.gen;
      }
    }
  }

  lemma RebalanceKeeps(log: Log, g: Group, s: GroupStep)
    requires s.Rebalance? && GroupInv(log, g) && CanGroup(log, g, s)
    ensures GroupInv(log, ApplyGroup(log, g, s))
  {
    var g' := ApplyGroup(log, g, s);
    forall m | m in g'.members ensures MemberOk(log, g', m, g'.members[m]) {
      assert MemberOk(log, g, m, g.members[m]);
    }
    forall x | x in g'.strays ensures StrayOk(g', x) { assert StrayOk(g, x); }
  }

  /** A commit given up on is a stray like any other. */
  lemma GivenUpOk(log: Log, g: Group, m: Id)
    requires InPhase(g, m) && MemberOk(log, g, m, g.members[m])
    ensures forall s | s in GivenUp(g, m) ::
              && s.gen <= g.gen && DoneBelow(g, s.part, s.offset + 1)
              && (s.gen == g.gen ==> s.part in g.owner && g.owner[s.part] == m && g.members[m].gen == g.gen)
  {}

  lemma OwnKept(log: Log, g: Group, s: GroupStep)
    requires CanGroup(log, g, s) && !s.Rebalance? && !s.CommitArrives? && !s.LateCommit? && !s.Assign? && !s.CommitLost?
    requires s.m in g.members ==> MemberOk(log, g, s.m, g.members[s.m])
    ensures var g' := ApplyGroup(log, g, s); s.m in g'.members ==> MemberOk(log, g', s.m, g'.members[s.m])
  {
    if s.Skip? || s.TryCommit? || s.Abandon? { HeldKept(log, g, s); } else { PlacedKept(log, g, s); }
  }

  lemma HeldKept(log: Log, g: Group, s: GroupStep)
    requires CanGroup(log, g, s) && (s.Skip? || s.TryCommit? || s.Abandon?) && MemberOk(log, g, s.m, g.members[s.m])
    ensures var g' := ApplyGroup(log, g, s); MemberOk(log, g', s.m, g'.members[s.m])
  {}

  lemma PlacedKept(log: Log, g: Group, s: GroupStep)
    requires CanGroup(log, g, s) && (s.Start? || s.Crash? || s.Revoke? || s.Deliver?)
    requires s.m in g.members ==> MemberOk(log, g, s.m, g.members[s.m])
    ensures var g' := ApplyGroup(log, g, s); s.m in g'.members ==> MemberOk(log, g', s.m, g'.members[s.m])
  {}

  lemma LossKept(log: Log, g: Group, s: GroupStep)
    requires CanGroup(log, g, s) && s.CommitLost? && MemberOk(log, g, s.m, g.members[s.m])
    ensures var g' := ApplyGroup(log, g, s); MemberOk(log, g', s.m, g'.members[s.m])
  {}

  /** On assignment the member starts where the broker's commits stop. */
  lemma AssignKept(log: Log, g: Group, s: GroupStep)
    requires CanGroup(log, g, s) && s.Assign? && GroupInv(log, g)
    ensures var g' := ApplyGroup(log, g, s); MemberOk(log, g', s.m, g'.members[s.m])
  {
    var g' := ApplyGroup(log, g, s);
    assert MemberOk(log, g, s.m, g.members[s.m]);
    forall x | x in g.strays && x.gen == g.gen ensures x.part in g.owner && g.owner[x.part] != s.m {
      assert StrayOk(g, x);
    }
  }

  /** The steps of one member that do not move the committed offsets. */
  lemma LocalKeeps(log: Log, g: Group, s: GroupStep)
    requires GroupInv(log, g) && CanGroup(log, g, s) && !s.Rebalance? && !s.CommitArrives? && !s.LateCommit?
    ensures GroupInv(log, ApplyGroup(log, g, s))
  {
    var g' := ApplyGroup(log, g, s);
    if s.m in g.members { assert MemberOk(log, g, s.m, g.members[s.m]); }
    if s.Assign? {
      AssignKept(log, g, s);
    } else if s.CommitLost? {
      LossKept(log, g, s);
    } else {
      OwnKept(log, g, s);
    }
    LocalShape(log, g, s);
    if InPhase(g, s.m) { GivenUpOk(log, g, s.m); }
    RestKept(log, g, g', s.m);
  }

  /** What such a step leaves alone: the broker, other members, and all but its own stray. */
  lemma LocalShape(log: Log, g: Group, s: GroupStep)
    requires CanGroup(log, g, s) && !s.Rebalance? && !s.CommitArrives? && !s.LateCommit?
    ensures SameBroker(g, ApplyGroup(log, g, s), s.m)
  {}

  predicate SameBroker(g: Group, g': Group, m: Id) {
    && g'.gen == g.gen && g'.owner == g.owner && g'.committed == g.committed && g.done <= g'.done
    && (forall o | o in g'.members && o != m :: o in g.members && g'.members[o] == g.members[o])
    && (m in g'.members && (m !in g.members || g'.members[m].gen != g.members[m].gen) ==> g'.members[m].gen == g.gen)
    && g'.strays <= g.strays + GivenUp(g, m)
  }

  lemma RestKept(log: Log, g: Group, g': Group, m: Id)
    requires GroupInv(log, g) && SameBroker(g, g', m) && (m in g'.members ==> MemberOk(log, g', m, g'.members[m]))
    requires forall s | s in GivenUp(g, m) ::
               && s.gen <= g.gen && DoneBelow(g, s.part, s.offset + 1)
               && (s.gen == g.gen ==> s.part in g.owner && g.owner[s.part] == m && g.members[m].gen == g.gen)
    ensures GroupInv(log, g')
  {
    forall o | o in g'.members && o != m ensures MemberOk(log, g', o, g'.members[o]) {
      assert MemberOk(log, g, o, g.members[o]);
      OthersKept(log, g, g', o, g.members[o]);
    }
    StraysKept(g, g');
    forall x | x in g'.strays ensures StrayOk(g', x) {}
    forall p | p in g'.committed ensures DoneBelow(g', p, g'.committed[p]) { assert DoneBelow(g, p, g.committed[p]); }
  }

  /** Only the partition's owner commits it in the current generation. */
  lemma OtherSeesArrival(log: Log, g: Group, s: GroupStep, m: Id)
    requires s.CommitArrives? && CanGroup(log, g, s) && m in g.members && m != s.m
    requires MemberOk(log, g, s.m, g.members[s.m]) && MemberOk(log, g, m, g.members[m])
    ensures MemberOk(log, ApplyGroup(log, g, s), m, g.members[m])
  {}

  lemma OwnArrival(log: Log, g: Group, s: GroupStep)
    requires s.CommitArrives? && CanGroup(log, g, s) && MemberOk(log, g, s.m, g.members[s.m])
    ensures var g' := ApplyGroup(log, g, s); MemberOk(log, g', s.m, g'.members[s.m])
    ensures forall p :: Committed(g, p) <= Committed(ApplyGroup(log, g, s), p)
  {}

  lemma ArrivalKeeps(log: Log, g: Group, s: GroupStep)
    requires s.CommitArrives? && GroupInv(log, g) && CanGroup(log, g, s)
    ensures GroupInv(log, ApplyGroup(log, g, s))
    ensures forall p :: Committed(g, p) <= Committed(ApplyGroup(log, g, s), p)
  {
    var g', f := ApplyGroup(log, g, s), Held(g, s.m);
    assert MemberOk(log, g, s.m, g.members[s.m]);
    OwnArrival(log, g, s);
    forall m | m in g'.members && m != s.m ensures MemberOk(log, g', m, g'.members[m]) {
      assert MemberOk(log, g, m, g.members[m]);
      OtherSeesArrival(log, g, s, m);
    }
    StraysKept(g, g');
    forall p | p in g'.committed ensures DoneBelow(g', p, g'.committed[p]) {
      if p in g.committed { assert DoneBelow(g, p, g.committed[p]); }
    }
  }

  lemma LateSeen(log: Log, g: Group, stray: Stray, m: Id, c: Member)
    requires stray in g.strays && MemberOk(log, g, m, c)
    ensures MemberOk(log, Land(g, stray), m, c)
  {}

  lemma LateKeeps(log: Log, g: Group, s: GroupStep)
    requires s.LateCommit? && GroupInv(log, g) && CanGroup(log, g, s)
    ensures GroupInv(log, ApplyGroup(log, g, s))
  {
    var g' := ApplyGroup(log, g, s);
    assert StrayOk(g, s.stray);
    forall m | m in g'.members ensures MemberOk(log, g', m, g'.members[m]) {
      assert MemberOk(log, g, m, g.members[m]);
      LateSeen(log, g, s.stray, m, g.members[m]);
    }
    StraysKept(g, g');
    forall p | p in g'.committed ensures DoneBelow(g', p, g'.committed[p]) {
      if p in g.committed { assert DoneBelow(g, p, g.committed[p]); }
    }
  }

  /** A commit that was given up on lands behind what its generation has committed since. */
  predicate LandsBehind(g: Group, s: GroupStep, p: Id) {
    s.LateCommit? && s.stray.gen == g.gen && s.stray.part == p && s.stray.offset + 1 < Committed(g, p)
  }

  /** Crashes, rebalances, lost, ambiguous and late commits: the invariant holds through all of
      them, and exactly a late commit that lands behind lowers a committed offset. */
  lemma GroupStepKeeps(log: Log, g: Group, s: GroupStep)
    requires GroupInv(log, g) && CanGroup(log, g, s)
    ensures GroupInv(log, ApplyGroup(log, g, s))
    ensures forall p :: Committed(ApplyGroup(log, g, s), p) < Committed(g, p) <==> LandsBehind(g, s, p)
  {
    if s.Rebalance? {
      RebalanceKeeps(log, g, s);
    } else if s.CommitArrives? {
      ArrivalKeeps(log, g, s);
    } else if s.LateCommit? {
      LateKeeps(log, g, s);
    } else {
      LocalKeeps(log, g, s);
    }
  }

  lemma OneMemberMoves(log: Log, g: Group, g': Group, m: Id)
    requires GroupInv(log, g) && m in g.members && m in g'.members && g'.members[m].gen == g.members[m].gen
    requires forall o | o in g'.members && o != m :: o in g.members && g'.members[o] == g.members[o]
    requires g'.gen == g.gen && g'.owner == g.owner && g'.committed == g.committed && g.done <= g'.done
    requires g'.strays == g.strays && MemberOk(log, g', m, g'.members[m])
    ensures GroupInv(log, g')
  {
    forall o | o in g'.members && o != m ensures MemberOk(log, g', o, g'.members[o]) {
      assert MemberOk(log, g, o, g.members[o]);
      OthersKept(log, g, g', o, g.members[o]);
    }
    StraysKept(g, g');
    forall p | p in g'.committed ensures DoneBelow(g', p, g'.committed[p]) { assert DoneBelow(g, p, g.committed[p]); }
  }

  /** Handling a record locally, or handling it to the end, keeps the invariant. */
  lemma PhaseKeeps(log: Log, g: Group, m: Id, phase: Phase)
    requires GroupInv(log, g) && InPhase(g, m) && (phase.Ready? || phase.Running?)
    ensures GroupInv(log, WithPhase(g, m, phase))
  {
    assert MemberOk(log, g, m, g.members[m]);
    OneMemberMoves(log, g, WithPhase(g, m, phase), m);
  }

  lemma FinishKeeps(log: Log, g: Group, m: Id)
    requires GroupInv(log, g) && InPhase(g, m)
    ensures GroupInv(log, Finish(g, m))
  {
    assert MemberOk(log, g, m, g.members[m]);
    OneMemberMoves(log, g, Finish(g, m), m);
  }

  predicate Grows(log: Log, log': Log) {
    log.Keys <= log'.Keys && forall p | p in log :: log[p] <= log'[p]
  }

  lemma GrowthKeeps(log: Log, log': Log, g: Group)
    requires GroupInv(log, g) && Grows(log, log')
    ensures GroupInv(log', g)
  {
    forall m | m in g.members ensures MemberOk(log', g, m, g.members[m]) {
      assert MemberOk(log, g, m, g.members[m]);
    }
  }
}
