/** A transfer that is refused leaves no trace. However deep the chain of ASSIGN, BRANCH, SEIZE,
    RELEASE and overflow steps that was tried, a block function that returns false has put
    back every variable, entity field, resource, queue, delay, pool and pending event. */
module Transactions {
  import opened SimModel
  import opened Semantics

  /** y is x, except that a QUEUE may have counted entries and drops. */
  ghost predicate SameBlock(k: Block, x: BlockState, y: BlockState) {
    && y == x.(enterN := y.enterN, dropN := y.dropN)
    && x.enterN <= y.enterN && x.dropN <= y.dropN
    && (!k.Queue? ==> y == x)
  }

  /** Only the stop flag and reason, the random stream and entry and drop counters of queues may differ. */
  ghost predicate RolledBack(m: Model, s: State, s': State)
    requires |m.blocks| == |s.blocks|
  {
    && s'.clock == s.clock && s'.vars == s.vars && s'.pools == s.pools && s'.res == s.res
    && s'.pending == s.pending
    && (s.stop ==> s'.stop)
    && |s'.blocks| == |s.blocks|
    && forall b: nat :: b < |s.blocks| ==> SameBlock(m.blocks[b], s.blocks[b], s'.blocks[b])
  }

  // ---------- undoing assignments ----------

  lemma {:induction false} AssignmentsTouchStoreOnly(m: Model, s: State, xs: seq<Assignment>, ref: EntityRef)
    requires Fits(m, s) && ValidRef(s, ref)
    requires forall x <- xs :: TargetFits(m, x.target)
    ensures var s' := RunAssignments(m, s, xs, ref).0; s' == s.(vars := s'.vars, pools := s'.pools, rng := s'.rng)
    decreases |xs|
  {
    if xs != [] {
      var a := xs[0];
      if !GuardHolds(AssignGuard(a), ref) {
        AssignmentsTouchStoreOnly(m, s, xs[1..], ref);
      } else {
        var (v, rng) := a.expr.eval(Look(s), ref);
        AssignmentsTouchStoreOnly(m, Write(m, s.(rng := rng), a.target, ref, v), xs[1..], ref);
      }
    }
  }

  lemma WriteBack(m: Model, s: State, t: Target, ref: EntityRef, v: Value, rng: nat, u: State)
    requires Fits(m, s) && Writable(m, s, t, ref)
    requires Fits(m, s.(rng := rng)) && Fits(m, u) && Writable(m, u, t, ref)
    requires var w := Write(m, s.(rng := rng), t, ref, v); u.vars == w.vars && u.pools == w.pools
    ensures Write(m, u, t, ref, Read(m, s, t, ref)) == u.(vars := s.vars, pools := s.pools)
  {
    var back := Write(m, u, t, ref, Read(m, s, t, ref));
    match t
    case Var(x) =>
      assert back.vars == s.vars;
    case Field(e, f) =>
      var p := s.pools[e - 1];
      assert PoolFits(m.entities[e - 1], p);
      assert p.entities[ref.idx][f := v][f := p.entities[ref.idx][f]] == p.entities[ref.idx];
      assert back.pools[e - 1].entities == p.entities;
      assert back.pools == s.pools;
  }

  /** Undoing in reverse order restores the store even when one target was assigned several times. */
  lemma {:induction false} UndoInvertsAssignments(m: Model, s: State, xs: seq<Assignment>, ref: EntityRef, u: State)
    requires Fits(m, s) && ValidRef(s, ref)
    requires forall x <- xs :: TargetFits(m, x.target)
    requires Fits(m, u) && ValidRef(u, ref) && SameSlots(s, u)
    requires var s' := RunAssignments(m, s, xs, ref).0; u.vars == s'.vars && u.pools == s'.pools
    requires forall x <- RunAssignments(m, s, xs, ref).1 :: x.saved.Some? ==> Writable(m, u, x.target, ref)
    ensures UndoAssignments(m, u, RunAssignments(m, s, xs, ref).1, ref) == u.(vars := s.vars, pools := s.pools)
    decreases |xs|
  {
    if xs != [] {
      var a := xs[0];
      var log := RunAssignments(m, s, xs, ref).1;
      if !GuardHolds(AssignGuard(a), ref) {
        assert log[1..] == RunAssignments(m, s, xs[1..], ref).1;
        assert forall x <- log[1..] :: x in log;
        UndoInvertsAssignments(m, s, xs[1..], ref, u);
      } else {
        UndoInvertsFirst(m, s, xs, ref, u);
      }
    }
  }

  lemma {:induction false} UndoInvertsFirst(m: Model, s: State, xs: seq<Assignment>, ref: EntityRef, u: State)
    requires Fits(m, s) && ValidRef(s, ref)
    requires forall x <- xs :: TargetFits(m, x.target)
    requires Fits(m, u) && ValidRef(u, ref) && SameSlots(s, u)
    requires var s' := RunAssignments(m, s, xs, ref).0; u.vars == s'.vars && u.pools == s'.pools
    requires forall x <- RunAssignments(m, s, xs, ref).1 :: x.saved.Some? ==> Writable(m, u, x.target, ref)
    requires xs != [] && GuardHolds(AssignGuard(xs[0]), ref)
    ensures UndoAssignments(m, u, RunAssignments(m, s, xs, ref).1, ref) == u.(vars := s.vars, pools := s.pools)
    decreases |xs|, 0
  {
    hide Fits, Look;
    var a := xs[0];
    var log := RunAssignments(m, s, xs, ref).1;
    var (v, rng) := a.expr.eval(Look(s), ref);
    PlainFits(m, s, s.(rng := rng));
    var s1 := Write(m, s.(rng := rng), a.target, ref, v);
    assert log[1..] == RunAssignments(m, s1, xs[1..], ref).1;
    assert forall x <- log[1..] :: x in log;
    UndoInvertsAssignments(m, s1, xs[1..], ref, u);
    assert log[0] in log;
    WriteBack(m, s, a.target, ref, v, rng, UndoAssignments(m, u, log[1..], ref));
  }

  // ---------- refused transfers ----------

  lemma {:induction false} RefusedByQueue(m: Model, s: State, b: BlockId, ref: EntityRef)
    requires Ready(m, s, b, ref) && m.blocks[b].Queue? && !EnterQueue(m, s, b, ref).ok
    ensures RolledBack(m, s, EnterQueue(m, s, b, ref).st)
    decreases m.rank[b], 2
  {
    var q := m.blocks[b];
    var (full, s0) := AtCapacity(s, q.capacity, |s.blocks[b].waiting|);
    if full && q.overflow.Some? {
      var s2 := CountDrop(CountEnter(s0, b), b);
      assert RolledBack(m, s, s2);
      Reach(m, s2, q.overflow.value, ref);
      RefusedTransferLeavesNoTrace(m, s2, q.overflow.value, ref);
      RolledBackChain(m, s, s2, EnterQueue(m, s, b, ref).st);
    }
  }

  lemma RolledBackChain(m: Model, s: State, s1: State, s2: State)
    requires |m.blocks| == |s.blocks| && RolledBack(m, s, s1) && RolledBack(m, s1, s2)
    ensures RolledBack(m, s, s2)
  {
    forall b: nat | b < |s.blocks|
      ensures SameBlock(m.blocks[b], s.blocks[b], s2.blocks[b])
    {
      assert SameBlock(m.blocks[b], s.blocks[b], s1.blocks[b]);
      assert SameBlock(m.blocks[b], s1.blocks[b], s2.blocks[b]);
    }
  }

  lemma {:induction false} RefusedBySeize(m: Model, s: State, b: BlockId, ref: EntityRef)
    requires Ready(m, s, b, ref) && m.blocks[b].Seize? && !EnterSeize(m, s, b, ref).ok
    ensures RolledBack(m, s, EnterSeize(m, s, b, ref).st)
    decreases m.rank[b], 2
  {
    var k := m.blocks[b].resource;
    if s.res[k].busy < s.res[k].capacity {
      var s1 := GrabUnit(s, k);
      UnitFits(m, s, b, k);
      Reach(m, s1, m.blocks[b].next, ref);
      RefusedTransferLeavesNoTrace(m, s1, m.blocks[b].next, ref);
      assert EnterSeize(m, s, b, ref).st.res == s.res;
    }
  }

  lemma {:induction false} RefusedByRelease(m: Model, s: State, b: BlockId, ref: EntityRef)
    requires Ready(m, s, b, ref) && m.blocks[b].Release? && !EnterRelease(m, s, b, ref).ok
    ensures RolledBack(m, s, EnterRelease(m, s, b, ref).st)
    decreases m.rank[b], 2
  {
    var k := m.blocks[b].resource;
    if s.res[k].busy > 0 {
      var s1 := DropUnit(s, k);
      UnitFits(m, s, b, k);
      Reach(m, s1, m.blocks[b].next, ref);
      RefusedTransferLeavesNoTrace(m, s1, m.blocks[b].next, ref);
      assert EnterRelease(m, s, b, ref).st.res == s.res;
    }
  }

  lemma {:induction false} RefusedByAssign(m: Model, s: State, b: BlockId, ref: EntityRef)
    requires Ready(m, s, b, ref) && m.blocks[b].Assign? && !EnterAssign(m, s, b, ref).ok
    ensures RolledBack(m, s, EnterAssign(m, s, b, ref).st)
    decreases m.rank[b], 2
  {
    var xs := m.blocks[b].assignments;
    var (s1, log) := RunAssignments(m, s, xs, ref);
    AssignmentsTouchStoreOnly(m, s, xs, ref);
    Reach(m, s1, m.blocks[b].next, ref);
    RefusedTransferLeavesNoTrace(m, s1, m.blocks[b].next, ref);
    var r := Enter(m, s1, m.blocks[b].next, ref);
    forall u | u in log && u.saved.Some?
      ensures Writable(m, r.st, u.target, ref)
    {
      SlotsWritable(m, s, r.st, u.target, ref);
    }
    UndoInvertsAssignments(m, s, xs, ref, r.st);
    forall c: nat | c < |s.blocks|
      ensures SameBlock(m.blocks[c], s.blocks[c], EnterAssign(m, s, b, ref).st.blocks[c])
    {
      assert SameBlock(m.blocks[c], s1.blocks[c], r.st.blocks[c]);
    }
  }

  lemma {:induction false} RefusedByBranch(m: Model, s: State, b: BlockId, ref: EntityRef)
    requires Ready(m, s, b, ref) && m.blocks[b].Branch? && !EnterBranch(m, s, b, ref).ok
    ensures RolledBack(m, s, EnterBranch(m, s, b, ref).st)
    decreases m.rank[b], 2
  {
    var (s1, chosen) := Choose(m, s, b, ref);
    PlainFits(m, s, s1);
    if chosen.Some? {
      Reach(m, s1, chosen.value, ref);
      RefusedTransferLeavesNoTrace(m, s1, chosen.value, ref);
      RolledBackChain(m, s, s1, EnterBranch(m, s, b, ref).st);
    }
  }

  /** All-or-nothing: a refused transfer is invisible to the rest of the simulation. */
  lemma {:induction false} RefusedTransferLeavesNoTrace(m: Model, s: State, b: BlockId, ref: EntityRef)
    requires Ready(m, s, b, ref)
    ensures !Enter(m, s, b, ref).ok ==> RolledBack(m, s, Enter(m, s, b, ref).st)
    decreases m.rank[b], 3
  {
    if !Enter(m, s, b, ref).ok {
      match m.blocks[b]
      case Queue(_, _, _, _) => RefusedByQueue(m, s, b, ref);
      case Delay(_, _, _, _) =>
      case Seize(_, _, _) => RefusedBySeize(m, s, b, ref);
      case Release(_, _) => RefusedByRelease(m, s, b, ref);
      case Assign(_, _) => RefusedByAssign(m, s, b, ref);
      case Branch(_, _) => RefusedByBranch(m, s, b, ref);
      case Terminate =>
    }
  }

  /** The same for waking a queue: when nothing advances, nothing changes. */
  lemma {:induction false} RefusedAdvanceLeavesNoTrace(m: Model, s: State, b: BlockId)
    requires Linked(m) && Fits(m, s) && IsQueue(m, b)
    ensures !TryAdvance(m, s, b).ok ==> RolledBack(m, s, TryAdvance(m, s, b).st)
  {
    var ws := s.blocks[b].waiting;
    if ws != [] {
      assert BlockLinked(m, b) && QueueFits(s, ws);
      Reach(m, s, m.blocks[b].next, ws[0].ref);
      RefusedTransferLeavesNoTrace(m, s, m.blocks[b].next, ws[0].ref);
    }
  }
}
