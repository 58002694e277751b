/** An induction principle for the mutually recursive block functions. A potential is an integer
    read off the state; a handful of facts about single moves of an entity determine how a whole
    transfer, with everything it sets in motion, changes it. */
module Potentials {
  import opened SimModel
  import opened Semantics
  import opened Transactions

  // ---------- which blocks a transfer can reach ----------

  /** Blocks that a transfer into b leaves alone: every CREATE and every other block not below b. */
  predicate OutOfReach(m: Model, b: BlockId, c: BlockId) {
    && |m.rank| == |m.blocks| && b < |m.blocks| && c < |m.blocks|
    && c != b && (m.blocks[c].Create? || m.rank[c] >= m.rank[b])
  }

  lemma {:induction false} TransferStaysBelow(m: Model, s: State, b: BlockId, ref: EntityRef, c: BlockId)
    requires Ready(m, s, b, ref) && OutOfReach(m, b, c)
    ensures Enter(m, s, b, ref).st.blocks[c] == s.blocks[c]
    decreases m.rank[b], 3
  {
    match m.blocks[b]
    case Queue(_, _, _, _) => QueueStaysBelow(m, s, b, ref, c);
    case Seize(_, _, _) => SeizeStaysBelow(m, s, b, ref, c);
    case Release(resource, next) => ReleaseStaysBelow(m, s, b, ref, c);
    case Assign(_, _) => AssignStaysBelow(m, s, b, ref, c);
    case Branch(_, _) =>
      var (s1, chosen) := Choose(m, s, b, ref);
      PlainFits(m, s, s1);
      if chosen.Some? {
        Reach(m, s1, chosen.value, ref);
        TransferStaysBelow(m, s1, chosen.value, ref, c);
      }
    case Delay(_, _, _, _) =>
    case Terminate =>
  }

  lemma {:induction false} SeizeStaysBelow(m: Model, s: State, b: BlockId, ref: EntityRef, c: BlockId)
    requires Ready(m, s, b, ref) && m.blocks[b].Seize? && OutOfReach(m, b, c)
    ensures EnterSeize(m, s, b, ref).st.blocks[c] == s.blocks[c]
    decreases m.rank[b], 2
  {
    var k, next := m.blocks[b].resource, m.blocks[b].next;
    if s.res[k].busy < s.res[k].capacity {
      UnitFits(m, s, b, k);
      Reach(m, GrabUnit(s, k), next, ref);
      TransferStaysBelow(m, GrabUnit(s, k), next, ref, c);
    }
  }

  lemma {:induction false} AssignStaysBelow(m: Model, s: State, b: BlockId, ref: EntityRef, c: BlockId)
    requires Ready(m, s, b, ref) && m.blocks[b].Assign? && OutOfReach(m, b, c)
    ensures EnterAssign(m, s, b, ref).st.blocks[c] == s.blocks[c]
    decreases m.rank[b], 2
  {
    var xs, next := m.blocks[b].assignments, m.blocks[b].next;
    var (s1, log) := RunAssignments(m, s, xs, ref);
    AssignmentsTouchStoreOnly(m, s, xs, ref);
    Reach(m, s1, next, ref);
    TransferStaysBelow(m, s1, next, ref, c);
    var r := Enter(m, s1, next, ref);
    if r.ok {
      CountFits(m, r.st, b);
    } else {
      forall u | u in log && u.saved.Some?
        ensures Writable(m, r.st, u.target, ref)
      {
        SlotsWritable(m, s, r.st, u.target, ref);
      }
      UndoKeepsBlocks(m, r.st, log, ref);
    }
  }

  lemma {:induction false} UndoKeepsBlocks(m: Model, s: State, log: seq<Undo>, ref: EntityRef)
    requires Fits(m, s) && ValidRef(s, ref)
    requires forall u <- log :: u.saved.Some? ==> Writable(m, s, u.target, ref)
    ensures var s' := UndoAssignments(m, s, log, ref); s' == s.(vars := s'.vars, pools := s'.pools)
    decreases |log|
  {
    if log != [] {
      assert log[0] in log && forall u <- log[1..] :: u in log;
      UndoKeepsBlocks(m, s, log[1..], ref);
    }
  }

  lemma {:induction false} QueueStaysBelow(m: Model, s: State, b: BlockId, ref: EntityRef, c: BlockId)
    requires Ready(m, s, b, ref) && m.blocks[b].Queue? && OutOfReach(m, b, c)
    ensures EnterQueue(m, s, b, ref).st.blocks[c] == s.blocks[c]
    decreases m.rank[b], 2
  {
    var q := m.blocks[b];
    var (full, s0) := AtCapacity(s, q.capacity, |s.blocks[b].waiting|);
    PlainFits(m, s, s0);
    CountFits(m, s0, b);
    var s1 := CountEnter(s0, b);
    if full {
      if q.overflow.Some? {
        CountFits(m, s1, b);
        Reach(m, CountDrop(s1, b), q.overflow.value, ref);
        TransferStaysBelow(m, CountDrop(s1, b), q.overflow.value, ref, c);
      }
    } else {
      var admitted := Admit(m, s1, b, ref);
      if admitted.ok {
        AdvanceStaysBelow(m, admitted.st, b, c);
      }
    }
  }

  lemma {:induction false} AdvanceStaysBelow(m: Model, s: State, b: BlockId, c: BlockId)
    requires Linked(m) && Fits(m, s) && IsQueue(m, b) && OutOfReach(m, b, c)
    ensures TryAdvance(m, s, b).st.blocks[c] == s.blocks[c]
    decreases m.rank[b], 1
  {
    var ws := s.blocks[b].waiting;
    if ws != [] {
      assert BlockLinked(m, b) && QueueFits(s, ws);
      Reach(m, s, m.blocks[b].next, ws[0].ref);
      TransferStaysBelow(m, s, m.blocks[b].next, ws[0].ref, c);
    }
  }

  lemma {:induction false} WakeStaysBelow(m: Model, s: State, qs: seq<BlockId>, bound: nat, c: BlockId)
    requires Linked(m) && Fits(m, s) && c < |m.blocks|
    requires forall q <- qs :: IsQueue(m, q) && m.rank[q] < bound
    requires m.blocks[c].Create? || m.rank[c] >= bound
    ensures Wake(m, s, qs, bound).blocks[c] == s.blocks[c]
    decreases bound, 0, |qs|
  {
    if qs != [] {
      assert qs[0] in qs;
      AdvanceStaysBelow(m, s, qs[0], c);
      WakeStaysBelow(m, TryAdvance(m, s, qs[0]).st, qs[1..], bound, c);
    }
  }

  lemma {:induction false} ReleaseStaysBelow(m: Model, s: State, b: BlockId, ref: EntityRef, c: BlockId)
    requires Ready(m, s, b, ref) && m.blocks[b].Release? && OutOfReach(m, b, c)
    ensures EnterRelease(m, s, b, ref).st.blocks[c] == s.blocks[c]
    decreases m.rank[b], 2
  {
    var k, next := m.blocks[b].resource, m.blocks[b].next;
    if s.res[k].busy > 0 {
      UnitFits(m, s, b, k);
      Reach(m, DropUnit(s, k), next, ref);
      TransferStaysBelow(m, DropUnit(s, k), next, ref, c);
      var r := Enter(m, DropUnit(s, k), next, ref);
      UnitFits(m, r.st, b, k);
      if r.ok {
        WakeStaysBelow(m, CountRelease(r.st, b, k), WakeList(m, m.resources[k].seizes), m.rank[b], c);
      }
    }
  }

  /** The queue that offers its head is untouched while the next block decides. */
  lemma {:induction false} HeadStaysDuringOffer(m: Model, s: State, b: BlockId)
    requires Linked(m) && Fits(m, s) && IsQueue(m, b) && s.blocks[b].waiting != []
    requires Ready(m, s, m.blocks[b].next, s.blocks[b].waiting[0].ref)
    ensures Enter(m, s, m.blocks[b].next, s.blocks[b].waiting[0].ref).st.blocks[b] == s.blocks[b]
  {
    assert BlockLinked(m, b);
    TransferStaysBelow(m, s, m.blocks[b].next, s.blocks[b].waiting[0].ref, b);
  }

  // ---------- potentials ----------

  /** An integer read off the state, and how single moves change it: it grows by weight(ref) when
      an entity gets a place and shrinks by as much when it leaves one; unit(k) belongs to a unit
      of resource k that is held but not yet counted. A lenient potential may go wrong in a move
      that stops the simulation. */
  datatype Potential = Potential(value: State -> int, weight: EntityRef -> int, unit: nat -> int, lenient: bool)

  /** The states agree on queues, counters, resources, free slots and pending events. */
  ghost predicate SameFlow(s: State, s': State) {
    && s'.clock == s.clock && s'.blocks == s.blocks && s'.res == s.res && s'.pending == s.pending
    && |s'.pools| == |s.pools|
    && forall t: nat ::
         t < |s.pools| ==> s'.pools[t].free == s.pools[t].free && |s'.pools[t].entities| == |s.pools[t].entities|
  }

  predicate PassesThrough(k: Block) {
    k.Seize? || k.Release? || k.Assign? || k.Branch?
  }

  ghost predicate QueueMoves(m: Model, p: Potential) {
    && (forall s, b: nat {:trigger CountDrop(CountEnter(s, b), b)} ::
         Fits(m, s) && IsQueue(m, b) ==> p.value(CountDrop(CountEnter(s, b), b)) == p.value(s))
    && (forall s, b: nat {:trigger CountEnter(s, b)} ::
         Fits(m, s) && IsQueue(m, b) && !p.lenient ==> p.value(CountEnter(s, b)) == p.value(s))
    && (forall s, b: nat, ref {:trigger Push(CountEnter(s, b), b, ref)} :: Fits(m, s) && IsQueue(m, b)
         ==> p.value(Push(CountEnter(s, b), b, ref)) == p.value(s) + p.weight(ref))
    && (forall s, d: real, b: nat, t: nat {:trigger Schedule(s, d, Timeout(b, t))} ::
         Fits(m, s) ==> p.value(Schedule(s, d, Timeout(b, t))) == p.value(s))
    && (forall s, b: nat {:trigger DeleteHead(s, b)} :: Fits(m, s) && IsQueue(m, b) && s.blocks[b].waiting != []
         ==> p.value(CountExit(DeleteHead(s, b), b)) == p.value(s) - p.weight(s.blocks[b].waiting[0].ref))
  }

  ghost predicate HoldMoves(m: Model, p: Potential) {
    && (forall s, k: nat {:trigger GrabUnit(s, k)} ::
         Fits(m, s) && k < |s.res| ==> p.value(GrabUnit(s, k)) == p.value(s) - p.unit(k))
    && (forall s, k: nat {:trigger DropUnit(s, k)} ::
         Fits(m, s) && k < |s.res| && s.res[k].busy > 0 ==> p.value(DropUnit(s, k)) == p.value(s) + p.unit(k))
  }

  ghost predicate CountMoves(m: Model, p: Potential) {
    && (forall s, b: nat, k: nat {:trigger CountSeize(s, b, k)} ::
         Fits(m, s) && b < |m.blocks| && PassesThrough(m.blocks[b]) && k < |s.res|
         ==> p.value(CountSeize(s, b, k)) == p.value(s) + p.unit(k))
    && (forall s, b: nat, k: nat {:trigger CountRelease(s, b, k)} ::
         Fits(m, s) && b < |m.blocks| && PassesThrough(m.blocks[b]) && k < |s.res|
         ==> p.value(CountRelease(s, b, k)) == p.value(s) - p.unit(k))
  }

  /** Putting a resource table in place of another changes the value by the tables alone. */
  ghost predicate ResupplyMoves(p: Potential) {
    forall s: State, u: State, res {:trigger Resupplied(s, res), Resupplied(u, res)} :: s.res == u.res
         ==> p.value(Resupplied(s, res)) - p.value(s) == p.value(Resupplied(u, res)) - p.value(u)
  }

  function Resupplied(s: State, res: seq<ResourceState>): State {
    s.(res := res)
  }

  ghost predicate EntityMoves(m: Model, p: Potential) {
    && (forall s, s' {:trigger SameFlow(s, s')} :: SameFlow(s, s') ==> p.value(s') == p.value(s))
    && (forall s, b: nat {:trigger CountPass(s, b)} ::
         Fits(m, s) && b < |m.blocks| && PassesThrough(m.blocks[b]) ==> p.value(CountPass(s, b)) == p.value(s))
    && (forall s, d: real, b: nat, ref {:trigger Schedule(Occupy(s, b), d, Completion(b, ref))} ::
         Fits(m, s) && b < |m.blocks| && m.blocks[b].Delay?
         ==> p.value(Schedule(Occupy(s, b), d, Completion(b, ref))) == p.value(s) + p.weight(ref))
    && (forall s, b: nat, ref {:trigger FreeEntity(m, CountEnter(s, b), ref)} ::
         Fits(m, s) && b < |m.blocks| && m.blocks[b].Terminate? && ValidRef(s, ref) && Fits(m, CountEnter(s, b))
         ==> p.value(FreeEntity(m, CountEnter(s, b), ref)) == p.value(s) + p.weight(ref))
  }

  ghost predicate Additive(m: Model, p: Potential) {
    QueueMoves(m, p) && HoldMoves(m, p) && CountMoves(m, p) && ResupplyMoves(p) && EntityMoves(m, p)
  }

  /** s' is s after moves that placed entities of total weight dw. */
  ghost predicate Changed(p: Potential, s: State, s': State, dw: int) {
    (p.lenient && s'.stop) || p.value(s') == p.value(s) + dw
  }

  lemma WriteKeepsFlow(m: Model, s: State, t: Target, ref: EntityRef, v: Value)
    requires Fits(m, s) && Writable(m, s, t, ref)
    ensures SameFlow(s, Write(m, s, t, ref, v))
  {
  }

  lemma {:induction false} StoreChangesKeepFlow(m: Model, s: State, xs: seq<Assignment>, ref: EntityRef)
    requires Fits(m, s) && ValidRef(s, ref)
    requires forall x <- xs :: TargetFits(m, x.target)
    ensures SameFlow(s, RunAssignments(m, s, xs, ref).0)
    decreases |xs|
  {
    if xs != [] {
      var a := xs[0];
      if !GuardHolds(AssignGuard(a), ref) {
        StoreChangesKeepFlow(m, s, xs[1..], ref);
      } else {
        var (v, rng) := a.expr.eval(Look(s), ref);
        PlainFits(m, s, s.(rng := rng));
        WriteKeepsFlow(m, s.(rng := rng), a.target, ref, v);
        StoreChangesKeepFlow(m, Write(m, s.(rng := rng), a.target, ref, v), xs[1..], ref);
      }
    }
  }

  lemma {:induction false} UndoKeepsFlow(m: Model, s: State, log: seq<Undo>, ref: EntityRef)
    requires Fits(m, s) && ValidRef(s, ref)
    requires forall u <- log :: u.saved.Some? ==> Writable(m, s, u.target, ref)
    ensures SameFlow(s, UndoAssignments(m, s, log, ref))
    decreases |log|
  {
    UndoKeepsBlocks(m, s, log, ref);
    if log != [] {
      assert log[0] in log && forall u <- log[1..] :: u in log;
      UndoKeepsFlow(m, s, log[1..], ref);
    }
  }

  /** A transfer that succeeds adds the entity's weight, one that fails adds nothing. */
  lemma {:induction false} TransferAddsWeight(m: Model, p: Potential, s: State, b: BlockId, ref: EntityRef)
    requires Additive(m, p) && Ready(m, s, b, ref)
    ensures var r := Enter(m, s, b, ref); Changed(p, s, r.st, if r.ok then p.weight(ref) else 0)
    decreases m.rank[b], 3
  {
    match m.blocks[b]
    case Queue(_, _, _, _) => QueueAddsWeight(m, p, s, b, ref);
    case Delay(_, _, _, _) => DelayAddsWeight(m, p, s, b, ref);
    case Seize(_, _, _) => SeizeAddsWeight(m, p, s, b, ref);
    case Release(_, _) => ReleaseAddsWeight(m, p, s, b, ref);
    case Assign(_, _) => AssignAddsWeight(m, p, s, b, ref);
    case Branch(_, _) => BranchAddsWeight(m, p, s, b, ref);
    case Terminate =>
      CountFits(m, s, b);
  }

  lemma DelayAddsWeight(m: Model, p: Potential, s: State, b: BlockId, ref: EntityRef)
    requires Additive(m, p) && Ready(m, s, b, ref) && m.blocks[b].Delay?
    ensures var r := EnterDelay(m, s, b, ref); Changed(p, s, r.st, if r.ok then p.weight(ref) else 0)
  {
    var d := m.blocks[b];
    var (full, s0) := AtCapacity(s, d.capacity, s.blocks[b].busy);
    PlainFits(m, s, s0);
    assert SameFlow(s, s0);
    if !full {
      if GuardHolds(d.duration.entity, ref) {
        var s1 := s0.(rng := d.duration.eval(Look(s0), ref).1);
        PlainFits(m, s0, s1);
        assert SameFlow(s, s1);
      } else {
        assert SameFlow(s, Halt(s0, WrongEntityForDuration(b)));
      }
    }
  }

  lemma {:induction false} BranchAddsWeight(m: Model, p: Potential, s: State, b: BlockId, ref: EntityRef)
    requires Additive(m, p) && Ready(m, s, b, ref) && m.blocks[b].Branch?
    ensures var r := EnterBranch(m, s, b, ref); Changed(p, s, r.st, if r.ok then p.weight(ref) else 0)
    decreases m.rank[b], 2
  {
    var (s1, chosen) := Choose(m, s, b, ref);
    PlainFits(m, s, s1);
    assert SameFlow(s, s1);
    if chosen.None? {
      assert SameFlow(s, Halt(s1, NoBranchMatched(b)));
    } else {
      Reach(m, s1, chosen.value, ref);
      TransferAddsWeight(m, p, s1, chosen.value, ref);
      CountFits(m, Enter(m, s1, chosen.value, ref).st, b);
    }
  }

  lemma {:induction false} QueueAddsWeight(m: Model, p: Potential, s: State, b: BlockId, ref: EntityRef)
    requires Additive(m, p) && Ready(m, s, b, ref) && m.blocks[b].Queue?
    ensures var r := EnterQueue(m, s, b, ref); Changed(p, s, r.st, if r.ok then p.weight(ref) else 0)
    decreases m.rank[b], 2
  {
    var q := m.blocks[b];
    var (full, s0) := AtCapacity(s, q.capacity, |s.blocks[b].waiting|);
    PlainFits(m, s, s0);
    assert SameFlow(s, s0);
    CountFits(m, s0, b);
    var s1 := CountEnter(s0, b);
    if full {
      if q.overflow.Some? {
        CountFits(m, s1, b);
        Reach(m, CountDrop(s1, b), q.overflow.value, ref);
        TransferAddsWeight(m, p, CountDrop(s1, b), q.overflow.value, ref);
      }
    } else {
      AdmissionAddsWeight(m, p, s0, b, ref);
      var admitted := Admit(m, s1, b, ref);
      if admitted.ok {
        AdvanceKeepsPotential(m, p, admitted.st, b);
      }
    }
  }

  lemma AdmissionAddsWeight(m: Model, p: Potential, s: State, b: BlockId, ref: EntityRef)
    requires Additive(m, p) && IsQueue(m, b) && Fits(m, s) && Ready(m, CountEnter(s, b), b, ref)
    ensures var r := Admit(m, CountEnter(s, b), b, ref); Changed(p, s, r.st, if r.ok then p.weight(ref) else 0)
  {
    var s1 := CountEnter(s, b);
    PushFits(m, s1, b, ref);
    match m.blocks[b].timeout
    case None =>
    case Some(t) =>
      if !GuardHolds(t.delay.entity, ref) {
        assert SameFlow(s1, Halt(s1, WrongEntityForTimeout(b)));
      } else {
        var s2 := s1.(rng := t.delay.eval(Look(s1), ref).1);
        PlainFits(m, s1, s2);
        PushFits(m, s2, b, ref);
        assert SameFlow(Push(s1, b, ref), Push(s2, b, ref));
      }
  }

  lemma {:induction false} AdvanceKeepsPotential(m: Model, p: Potential, s: State, b: BlockId)
    requires Additive(m, p) && Linked(m) && Fits(m, s) && IsQueue(m, b)
    ensures Changed(p, s, TryAdvance(m, s, b).st, 0)
    decreases m.rank[b], 1
  {
    var ws := s.blocks[b].waiting;
    if ws != [] {
      assert BlockLinked(m, b) && QueueFits(s, ws);
      Reach(m, s, m.blocks[b].next, ws[0].ref);
      TransferAddsWeight(m, p, s, m.blocks[b].next, ws[0].ref);
      HeadStaysDuringOffer(m, s, b);
    }
  }

  lemma {:induction false} WakeKeepsPotential(m: Model, p: Potential, s: State, qs: seq<BlockId>, bound: nat)
    requires Additive(m, p) && Linked(m) && Fits(m, s)
    requires forall q <- qs :: IsQueue(m, q) && m.rank[q] < bound
    ensures Changed(p, s, Wake(m, s, qs, bound), 0)
    decreases bound, 0, |qs|
  {
    if qs != [] {
      assert qs[0] in qs;
      AdvanceKeepsPotential(m, p, s, qs[0]);
      WakeKeepsPotential(m, p, TryAdvance(m, s, qs[0]).st, qs[1..], bound);
    }
  }

  lemma {:induction false} SeizeAddsWeight(m: Model, p: Potential, s: State, b: BlockId, ref: EntityRef)
    requires Additive(m, p) && Ready(m, s, b, ref) && m.blocks[b].Seize?
    ensures var r := EnterSeize(m, s, b, ref); Changed(p, s, r.st, if r.ok then p.weight(ref) else 0)
    decreases m.rank[b], 2
  {
    var k, next := m.blocks[b].resource, m.blocks[b].next;
    if s.res[k].busy < s.res[k].capacity {
      var s1 := GrabUnit(s, k);
      UnitFits(m, s, b, k);
      Reach(m, s1, next, ref);
      TransferAddsWeight(m, p, s1, next, ref);
      var r := Enter(m, s1, next, ref);
      if !r.ok {
        RefusedTransferLeavesNoTrace(m, s1, next, ref);
        assert EnterSeize(m, s, b, ref).st == Resupplied(r.st, s.res);
        assert s == Resupplied(s1, s.res);
      }
    }
  }

  lemma {:induction false} ReleaseAddsWeight(m: Model, p: Potential, s: State, b: BlockId, ref: EntityRef)
    requires Additive(m, p) && Ready(m, s, b, ref) && m.blocks[b].Release?
    ensures var r := EnterRelease(m, s, b, ref); Changed(p, s, r.st, if r.ok then p.weight(ref) else 0)
    decreases m.rank[b], 2
  {
    var k, next := m.blocks[b].resource, m.blocks[b].next;
    if s.res[k].busy == 0 {
      assert SameFlow(s, Halt(s, ReleaseOfIdleResource(b)));
    } else {
      var s1 := DropUnit(s, k);
      UnitFits(m, s, b, k);
      Reach(m, s1, next, ref);
      TransferAddsWeight(m, p, s1, next, ref);
      var r := Enter(m, s1, next, ref);
      if r.ok {
        UnitFits(m, r.st, b, k);
        WakeKeepsPotential(m, p, CountRelease(r.st, b, k), WakeList(m, m.resources[k].seizes), m.rank[b]);
      } else {
        RefusedTransferLeavesNoTrace(m, s1, next, ref);
        assert EnterRelease(m, s, b, ref).st == Resupplied(r.st, s.res);
        assert s == Resupplied(s1, s.res);
      }
    }
  }

  lemma {:induction false} AssignAddsWeight(m: Model, p: Potential, s: State, b: BlockId, ref: EntityRef)
    requires Additive(m, p) && Ready(m, s, b, ref) && m.blocks[b].Assign?
    ensures var r := EnterAssign(m, s, b, ref); Changed(p, s, r.st, if r.ok then p.weight(ref) else 0)
    decreases m.rank[b], 2
  {
    var xs, next := m.blocks[b].assignments, m.blocks[b].next;
    var (s1, log) := RunAssignments(m, s, xs, ref);
    AssignmentsTouchStoreOnly(m, s, xs, ref);
    StoreChangesKeepFlow(m, s, xs, ref);
    Reach(m, s1, next, ref);
    TransferAddsWeight(m, p, s1, next, ref);
    var r := Enter(m, s1, next, ref);
    if r.ok {
      CountFits(m, r.st, b);
    } else {
      forall u | u in log && u.saved.Some?
        ensures Writable(m, r.st, u.target, ref)
      {
        SlotsWritable(m, s, r.st, u.target, ref);
      }
      UndoKeepsBlocks(m, r.st, log, ref);
      UndoKeepsFlow(m, r.st, log, ref);
    }
  }
}
