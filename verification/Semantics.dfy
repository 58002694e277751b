/** The meaning of the emitted block functions, event handlers and run loop, as functions on
    states. Simulator.dfy is the imperative program proved to compute them. */
module Semantics {
  import opened Options
  import opened EventQueues
  import opened Sums
  import opened SimModel

  datatype Outcome = Outcome(st: State, ok: bool)

  // ---------- single assignments of the emitted program ----------

  function With(s: State, b: BlockId, x: BlockState): State
    requires b < |s.blocks|
  {
    s.(blocks := s.blocks[b := x])
  }

  function CountEnter(s: State, b: BlockId): State
    requires b < |s.blocks|
  {
    With(s, b, s.blocks[b].(enterN := s.blocks[b].enterN + 1))
  }

  function CountExit(s: State, b: BlockId): State
    requires b < |s.blocks|
  {
    With(s, b, s.blocks[b].(exitN := s.blocks[b].exitN + 1))
  }

  function CountDrop(s: State, b: BlockId): State
    requires b < |s.blocks|
  {
    With(s, b, s.blocks[b].(dropN := s.blocks[b].dropN + 1))
  }

  function CountPass(s: State, b: BlockId): State
    requires b < |s.blocks|
  {
    With(s, b, s.blocks[b].(enterN := s.blocks[b].enterN + 1, exitN := s.blocks[b].exitN + 1))
  }

  function Halt(s: State, reason: StopReason): State {
    s.(stop := true, reason := reason)
  }

  function Max(a: nat, b: nat): nat {
    if a > b then a else b
  }

  function Schedule(s: State, delay: real, a: Action): State {
    s.(pending := s.pending + [Event(s.clock + delay, Run(a))])
  }

  // ---------- entity pools ----------

  /** Pool.Alloc: a recycled slot if there is one, the last freed first, else a new one. */
  function TakeSlot(p: PoolState, fill: Record): (r: (PoolState, nat))
    requires forall i: nat :: i < |p.free| ==> p.free[i] < |p.entities|
    ensures |p.entities| <= |r.0.entities| && r.1 < |r.0.entities|
  {
    if p.free == [] then (p.(entities := p.entities + [fill]), |p.entities|)
    else
      var n := |p.free| - 1;
      (PoolState(p.entities[p.free[n] := fill], p.free[..n]), p.free[n])
  }

  lemma TakeSlotFits(desc: EntityDesc, p: PoolState, fill: Record)
    requires PoolFits(desc, p) && |fill| == |desc.zero|
    ensures PoolFits(desc, TakeSlot(p, fill).0)
  {
  }

  /** Pool.Free: the slot is cleared and put on the free list. */
  function ReturnSlot(p: PoolState, clear: Record, idx: nat): PoolState
    requires idx < |p.entities|
  {
    PoolState(p.entities[idx := clear], p.free + [idx])
  }

  lemma ReturnSlotFits(desc: EntityDesc, p: PoolState, idx: nat)
    requires PoolFits(desc, p) && idx < |p.entities|
    ensures PoolFits(desc, ReturnSlot(p, desc.zero, idx))
  {
  }

  function SetPool(s: State, typ: nat, p: PoolState): State
    requires 1 <= typ <= |s.pools|
  {
    s.(pools := s.pools[typ - 1 := p])
  }

  /** Allocates an entity and gives its fields their declared defaults. */
  function Alloc(m: Model, s: State, entity: nat): (r: (State, EntityRef))
    requires Linked(m) && Fits(m, s) && 1 <= entity <= |m.entities|
    ensures Fits(m, r.0) && ValidRef(r.0, r.1) && r.1.typ == entity
    ensures forall x :: ValidRef(s, x) ==> ValidRef(r.0, x)
  {
    var desc, p := m.entities[entity - 1], s.pools[entity - 1];
    assert PoolFits(desc, p);
    TakeSlotFits(desc, p, desc.defaults);
    GrowFits(m, s, entity, TakeSlot(p, desc.defaults).0);
    (SetPool(s, entity, TakeSlot(p, desc.defaults).0), EntityRef(entity, TakeSlot(p, desc.defaults).1))
  }

  /** Replacing one pool by a fitting one with at least as many slots. */
  lemma GrowFits(m: Model, s: State, entity: nat, p': PoolState)
    requires Fits(m, s) && 1 <= entity <= |m.entities|
    requires PoolFits(m.entities[entity - 1], p') && |s.pools[entity - 1].entities| <= |p'.entities|
    ensures Fits(m, SetPool(s, entity, p'))
    ensures forall x :: ValidRef(s, x) ==> ValidRef(SetPool(s, entity, p'), x)
  {
    var s' := SetPool(s, entity, p');
    forall t: nat | t < |s'.pools|
      ensures PoolFits(m.entities[t], s'.pools[t])
    {
      assert PoolFits(m.entities[t], s.pools[t]);
    }
    SameQueuesFit(m, s, s');
  }

  /** Fits carries over when no slot disappears, no queue changes and no event is added. */
  lemma SameQueuesFit(m: Model, s: State, s': State)
    requires Fits(m, s)
    requires |s'.pools| == |s.pools| && |s'.res| == |s.res| && |s'.vars| == |s.vars|
    requires forall t: nat :: t < |s'.pools| ==> PoolFits(m.entities[t], s'.pools[t])
    requires forall x :: ValidRef(s, x) ==> ValidRef(s', x)
    requires s'.blocks == s.blocks
    requires forall i: nat :: i < |s'.pending| ==> s'.pending[i] in s.pending
    ensures Fits(m, s')
  {
    forall b: nat | b < |s'.blocks|
      ensures QueueFits(s', s'.blocks[b].waiting)
    {
      assert QueueFits(s, s.blocks[b].waiting);
    }
    forall i: nat | i < |s'.pending|
      ensures EventFits(m, s', s'.pending[i])
    {
      assert s'.pending[i] in s.pending;
    }
  }

  function FreeEntity(m: Model, s: State, ref: EntityRef): (s': State)
    requires Fits(m, s)
    requires 1 <= ref.typ <= |m.entities| ==> ValidRef(s, ref)
    ensures Fits(m, s') && SameSlots(s, s') && (s.stop ==> s'.stop)
  {
    if 1 <= ref.typ <= |m.entities| then
      var desc, p := m.entities[ref.typ - 1], s.pools[ref.typ - 1];
      assert PoolFits(desc, p);
      ReturnSlotFits(desc, p, ref.idx);
      GrowFits(m, s, ref.typ, ReturnSlot(p, desc.zero, ref.idx));
      SetPool(s, ref.typ, ReturnSlot(p, desc.zero, ref.idx))
    else
      Halt(s, UnknownEntityType)
  }

  // ---------- variables and entity fields ----------

  predicate Writable(m: Model, s: State, t: Target, ref: EntityRef) {
    TargetFits(m, t) && (t.Field? ==> ref.typ == t.entity && ValidRef(s, ref))
  }

  lemma SlotsWritable(m: Model, s: State, s': State, t: Target, ref: EntityRef)
    requires SameSlots(s, s') && Writable(m, s, t, ref)
    ensures Writable(m, s', t, ref)
  {
  }

  function Read(m: Model, s: State, t: Target, ref: EntityRef): Value
    requires Fits(m, s) && Writable(m, s, t, ref)
  {
    match t
    case Var(v) => s.vars[v]
    case Field(e, f) =>
      assert PoolFits(m.entities[e - 1], s.pools[e - 1]);
      s.pools[e - 1].entities[ref.idx][f]
  }

  function Write(m: Model, s: State, t: Target, ref: EntityRef, v: Value): (s': State)
    requires Fits(m, s) && Writable(m, s, t, ref)
    ensures Fits(m, s') && SameSlots(s, s') && (s.stop ==> s'.stop)
  {
    match t
    case Var(x) => s.(vars := s.vars[x := v])
    case Field(e, f) =>
      var p := s.pools[e - 1];
      assert PoolFits(m.entities[e - 1], p);
      var p' := p.(entities := p.entities[ref.idx := p.entities[ref.idx][f := v]]);
      GrowFits(m, s, e, p');
      SetPool(s, e, p')
  }

  /** The entity type an assignment is guarded by in the emitted code. */
  function AssignGuard(a: Assignment): Option<nat> {
    if a.target.Field? then Some(a.target.entity) else a.expr.entity
  }

  function GuardHolds(g: Option<nat>, ref: EntityRef): bool {
    g.None? || ref.typ == g.value
  }

  /** assignOld and assignChanged of one assignment. */
  datatype Undo = Undo(target: Target, saved: Option<Value>)

  function RunAssignments(m: Model, s: State, xs: seq<Assignment>, ref: EntityRef): (r: (State, seq<Undo>))
    requires Fits(m, s) && ValidRef(s, ref)
    requires forall x <- xs :: TargetFits(m, x.target)
    ensures Fits(m, r.0) && SameSlots(s, r.0) && (s.stop ==> r.0.stop)
    ensures forall u <- r.1 :: u.saved.Some? ==> Writable(m, s, u.target, ref)
    decreases |xs|
  {
    if xs == [] then (s, [])
    else
      var a := xs[0];
      if !GuardHolds(AssignGuard(a), ref) then
        var (s1, log) := RunAssignments(m, s, xs[1..], ref);
        (s1, [Undo(a.target, None)] + log)
      else
        var before := Read(m, s, a.target, ref);
        var (v, rng) := a.expr.eval(Look(s), ref);
        var s1 := Write(m, s.(rng := rng), a.target, ref, v);
        var (s2, log) := RunAssignments(m, s1, xs[1..], ref);
        assert forall t :: Writable(m, s1, t, ref) ==> Writable(m, s, t, ref) by {
          forall t | Writable(m, s1, t, ref) ensures Writable(m, s, t, ref) { SlotsWritable(m, s1, s, t, ref); }
        }
        (s2, [Undo(a.target, Some(before))] + log)
  }

  /** Restores the changed targets, last assignment first. */
  function UndoAssignments(m: Model, s: State, log: seq<Undo>, ref: EntityRef): (s': State)
    requires Fits(m, s) && ValidRef(s, ref)
    requires forall u <- log :: u.saved.Some? ==> Writable(m, s, u.target, ref)
    ensures Fits(m, s') && SameSlots(s, s') && (s.stop ==> s'.stop)
    decreases |log|
  {
    if log == [] then s
    else
      assert log[0] in log && forall u <- log[1..] :: u in log;
      var s1 := UndoAssignments(m, s, log[1..], ref);
      if log[0].saved.None? then s1
      else
        SlotsWritable(m, s, s1, log[0].target, ref);
        Write(m, s1, log[0].target, ref, log[0].saved.value)
  }

  /** The first case whose condition holds; conditions are evaluated in order, and a condition
      on fields of another entity type is not evaluated at all. */
  function Select(s: State, cases: seq<Case>, ref: EntityRef): (r: (State, Option<BlockId>))
    ensures r.0 == s.(rng := r.0.rng)
    ensures r.1.Some? ==> exists c :: c in cases && c.next == r.1.value
    decreases |cases|
  {
    if cases == [] then (s, None)
    else
      var (s1, holds) := Holds(s, cases[0].condition, ref);
      if holds then
        assert cases[0] in cases;
        (s1, Some(cases[0].next))
      else
        Select(s1, cases[1..], ref)
  }

  function Holds(s: State, c: Condition, ref: EntityRef): (r: (State, bool))
    ensures r.0 == s.(rng := r.0.rng)
  {
    match c
    case IsEntity(e) => (s, ref.typ == e)
    case Test(expr) =>
      if GuardHolds(expr.entity, ref) then
        var (v, rng) := expr.eval(Look(s), ref);
        (s.(rng := rng), v)
      else (s, false)
  }

  // ---------- queues ----------

  function Push(s: State, b: BlockId, ref: EntityRef): State
    requires b < |s.blocks|
  {
    var x := s.blocks[b];
    var n := |x.waiting| + 1;
    With(s, b, x.(waiting := x.waiting + [Waiting(x.total, ref)], total := x.total + 1, maxLen := Max(n, x.maxLen)))
  }

  /** Removes the oldest waiting entity, if there is one. */
  function DeleteHead(s: State, b: BlockId): State
    requires b < |s.blocks|
  {
    var x := s.blocks[b];
    if x.waiting == [] then s else With(s, b, x.(waiting := x.waiting[1..]))
  }

  function Find(ws: seq<Waiting>, ticket: nat): (r: Option<nat>)
    ensures r.Some? ==> r.value < |ws| && ws[r.value].ticket == ticket
    ensures r.None? ==> forall w <- ws :: w.ticket != ticket
  {
    if ws == [] then None
    else if ws[0].ticket == ticket then Some(0)
    else
      var r := Find(ws[1..], ticket);
      if r.Some? then Some(r.value + 1) else None
  }

  // ---------- block functions ----------

  ghost predicate Ready(m: Model, s: State, b: BlockId, ref: EntityRef) {
    Linked(m) && Fits(m, s) && IsTarget(m, b) && BlockLinked(m, b) && m.rank[b] < m.top && ValidRef(s, ref)
  }

  lemma Reach(m: Model, s: State, b: BlockId, ref: EntityRef)
    requires Linked(m) && Fits(m, s) && IsTarget(m, b) && ValidRef(s, ref)
    ensures Ready(m, s, b, ref)
  {
  }

  lemma WithFits(m: Model, s: State, b: BlockId, x: BlockState)
    requires Fits(m, s) && b < |s.blocks| && QueueFits(s, x.waiting)
    ensures Fits(m, With(s, b, x)) && SameSlots(s, With(s, b, x))
  {
    SlotsFit(m, s, With(s, b, x));
  }

  /** Fits carries over when the slots are the same and every queue and event fits the old state. */
  lemma SlotsFit(m: Model, s: State, s': State)
    requires Fits(m, s)
    requires s'.pools == s.pools && |s'.res| == |s.res| && |s'.vars| == |s.vars| && |s'.blocks| == |s.blocks|
    requires forall b: nat :: b < |s'.blocks| ==> QueueFits(s, s'.blocks[b].waiting)
    requires forall i: nat :: i < |s'.pending| ==> EventFits(m, s, s'.pending[i])
    ensures Fits(m, s') && SameSlots(s, s')
  {
    assert forall r :: ValidRef(s, r) ==> ValidRef(s', r);
  }

  /** States that differ only in fields that Fits does not look at. */
  lemma PlainFits(m: Model, s: State, s': State)
    requires Fits(m, s)
    requires s'.pools == s.pools && s'.blocks == s.blocks && s'.pending == s.pending
    requires |s'.res| == |s.res| && |s'.vars| == |s.vars|
    ensures Fits(m, s') && SameSlots(s, s')
  {
    SlotsFit(m, s, s');
  }

  lemma ScheduleFits(m: Model, s: State, delay: real, a: Action)
    requires Fits(m, s) && ActionFits(m, s, a)
    ensures Fits(m, Schedule(s, delay, a)) && SameSlots(s, Schedule(s, delay, a))
  {
    SlotsFit(m, s, Schedule(s, delay, a));
  }

  /** Hands an entity to a block: true when the block took it over. */
  function Enter(m: Model, s: State, b: BlockId, ref: EntityRef): (r: Outcome)
    requires Ready(m, s, b, ref)
    ensures Fits(m, r.st) && SameSlots(s, r.st) && (s.stop ==> r.st.stop)
    decreases m.rank[b], 3, 0
  {
    match m.blocks[b]
    case Queue(_, _, _, _) => EnterQueue(m, s, b, ref)
    case Delay(_, _, _, _) => EnterDelay(m, s, b, ref)
    case Seize(_, _, _) => EnterSeize(m, s, b, ref)
    case Release(_, _) => EnterRelease(m, s, b, ref)
    case Assign(_, _) => EnterAssign(m, s, b, ref)
    case Branch(_, _) => EnterBranch(m, s, b, ref)
    case Terminate => EnterTerminate(m, s, b, ref)
  }

  function EnterTerminate(m: Model, s: State, b: BlockId, ref: EntityRef): (r: Outcome)
    requires Fits(m, s) && b < |m.blocks| && ValidRef(s, ref)
    ensures Fits(m, r.st) && SameSlots(s, r.st) && (s.stop ==> r.st.stop)
  {
    CountFits(m, s, b);
    Outcome(FreeEntity(m, CountEnter(s, b), ref), true)
  }

  function EnterDelay(m: Model, s: State, b: BlockId, ref: EntityRef): (r: Outcome)
    requires Fits(m, s) && b < |m.blocks| && ValidRef(s, ref) && m.blocks[b].Delay?
    ensures Fits(m, r.st) && SameSlots(s, r.st) && (s.stop ==> r.st.stop)
  {
    var d := m.blocks[b];
    var (full, s0) := AtCapacity(s, d.capacity, s.blocks[b].busy);
    PlainFits(m, s, s0);
    if full then Outcome(s0, false)
    else if !GuardHolds(d.duration.entity, ref) then
      PlainFits(m, s0, Halt(s0, WrongEntityForDuration(b)));
      Outcome(Halt(s0, WrongEntityForDuration(b)), false)
    else
      var (duration, rng) := d.duration.eval(Look(s0), ref);
      var s1 := s0.(rng := rng);
      PlainFits(m, s0, s1);
      OccupyFits(m, s1, b);
      ScheduleFits(m, Occupy(s1, b), duration, Completion(b, ref));
      Outcome(Schedule(Occupy(s1, b), duration, Completion(b, ref)), true)
  }

  /** A DELAY takes an entity: enterN++, busy++ and the high-water mark. */
  function Occupy(s: State, b: BlockId): State
    requires b < |s.blocks|
  {
    var x := s.blocks[b];
    With(s, b, x.(enterN := x.enterN + 1, busy := x.busy + 1, maxBusy := Max(x.busy + 1, x.maxBusy)))
  }

  lemma OccupyFits(m: Model, s: State, b: BlockId)
    requires Fits(m, s) && b < |s.blocks|
    ensures Fits(m, Occupy(s, b)) && SameSlots(s, Occupy(s, b))
  {
    var x := s.blocks[b];
    assert QueueFits(s, x.waiting);
    WithFits(m, s, b, x.(enterN := x.enterN + 1, busy := x.busy + 1, maxBusy := Max(x.busy + 1, x.maxBusy)));
  }

  /** The capacity test of QUEUE and DELAY; without a capacity the block is never full. */
  function AtCapacity(s: State, capacity: Option<GlobalExpr<nat>>, used: nat): (r: (bool, State))
    ensures r.1 == s.(rng := r.1.rng)
    ensures capacity.None? ==> r == (false, s)
  {
    match capacity
    case None => (false, s)
    case Some(expr) =>
      var (c, rng) := expr(Look(s));
      (used >= c, s.(rng := rng))
  }

  function EnterQueue(m: Model, s: State, b: BlockId, ref: EntityRef): (r: Outcome)
    requires Ready(m, s, b, ref) && m.blocks[b].Queue?
    ensures Fits(m, r.st) && SameSlots(s, r.st) && (s.stop ==> r.st.stop)
    decreases m.rank[b], 2, 0
  {
    var q := m.blocks[b];
    var (full, s0) := AtCapacity(s, q.capacity, |s.blocks[b].waiting|);
    PlainFits(m, s, s0);
    CountFits(m, s0, b);
    var s1 := CountEnter(s0, b);
    if full then
      if q.overflow.None? then Outcome(s0, false)
      else
        CountFits(m, s1, b);
        Reach(m, CountDrop(s1, b), q.overflow.value, ref);
        Enter(m, CountDrop(s1, b), q.overflow.value, ref)
    else
      var admitted := Admit(m, s1, b, ref);
      if !admitted.ok then admitted
      else Outcome(TryAdvance(m, admitted.st, b).st, true)
  }

  lemma PushFits(m: Model, s: State, b: BlockId, ref: EntityRef)
    requires Fits(m, s) && b < |s.blocks| && ValidRef(s, ref)
    ensures Fits(m, Push(s, b, ref)) && SameSlots(s, Push(s, b, ref))
  {
    var x := s.blocks[b];
    assert QueueFits(s, x.waiting);
    var ws := x.waiting + [Waiting(x.total, ref)];
    assert QueueFits(s, ws);
    WithFits(m, s, b, x.(waiting := ws, total := x.total + 1, maxLen := Max(|x.waiting| + 1, x.maxLen)));
  }

  /** Puts the entity into the queue and, if the queue has a timeout, schedules its expiry. */
  function Admit(m: Model, s: State, b: BlockId, ref: EntityRef): (r: Outcome)
    requires Fits(m, s) && b < |m.blocks| && ValidRef(s, ref) && m.blocks[b].Queue?
    ensures Fits(m, r.st) && SameSlots(s, r.st) && (s.stop ==> r.st.stop)
  {
    match m.blocks[b].timeout
    case None =>
      PushFits(m, s, b, ref);
      Outcome(Push(s, b, ref), true)
    case Some(t) =>
      if !GuardHolds(t.delay.entity, ref) then
        PlainFits(m, s, Halt(s, WrongEntityForTimeout(b)));
        Outcome(Halt(s, WrongEntityForTimeout(b)), false)
      else
        var (delay, rng) := t.delay.eval(Look(s), ref);
        var s1 := s.(rng := rng);
        PlainFits(m, s, s1);
        PushFits(m, s1, b, ref);
        var s2 := Push(s1, b, ref);
        ScheduleFits(m, s2, delay, Timeout(b, s1.blocks[b].total));
        Outcome(Schedule(s2, delay, Timeout(b, s1.blocks[b].total)), true)
  }

  lemma DeleteHeadFits(m: Model, s: State, b: BlockId)
    requires Fits(m, s) && b < |s.blocks|
    ensures Fits(m, DeleteHead(s, b)) && SameSlots(s, DeleteHead(s, b))
  {
    var x := s.blocks[b];
    assert QueueFits(s, x.waiting);
    if x.waiting != [] {
      assert QueueFits(s, x.waiting[1..]);
      WithFits(m, s, b, x.(waiting := x.waiting[1..]));
    }
  }

  lemma CountFits(m: Model, s: State, b: BlockId)
    requires Fits(m, s) && b < |s.blocks|
    ensures Fits(m, CountEnter(s, b)) && SameSlots(s, CountEnter(s, b))
    ensures Fits(m, CountExit(s, b)) && SameSlots(s, CountExit(s, b))
    ensures Fits(m, CountPass(s, b)) && SameSlots(s, CountPass(s, b))
    ensures Fits(m, CountDrop(s, b)) && SameSlots(s, CountDrop(s, b))
  {
    var x := s.blocks[b];
    assert QueueFits(s, x.waiting);
    WithFits(m, s, b, x.(enterN := x.enterN + 1));
    WithFits(m, s, b, x.(exitN := x.exitN + 1));
    WithFits(m, s, b, x.(dropN := x.dropN + 1));
    WithFits(m, s, b, x.(enterN := x.enterN + 1, exitN := x.exitN + 1));
  }

  /** Offers the head of a queue to the next block and removes it once it was taken. */
  function TryAdvance(m: Model, s: State, b: BlockId): (r: Outcome)
    requires Linked(m) && Fits(m, s) && IsQueue(m, b)
    ensures Fits(m, r.st) && SameSlots(s, r.st) && (s.stop ==> r.st.stop)
    decreases m.rank[b], 1, 0
  {
    var ws := s.blocks[b].waiting;
    if ws == [] then Outcome(s, false)
    else
      assert BlockLinked(m, b);
      assert QueueFits(s, ws);
      Reach(m, s, m.blocks[b].next, ws[0].ref);
      var r := Enter(m, s, m.blocks[b].next, ws[0].ref);
      if !r.ok then Outcome(r.st, false)
      else
        DeleteHeadFits(m, r.st, b);
        CountFits(m, DeleteHead(r.st, b), b);
        Outcome(CountExit(DeleteHead(r.st, b), b), true)
  }

  /** Tries the wait queues in order and stops at the first one that advanced. */
  function Wake(m: Model, s: State, qs: seq<BlockId>, bound: nat): (s': State)
    requires Linked(m) && Fits(m, s)
    requires forall q <- qs :: IsQueue(m, q) && m.rank[q] < bound
    ensures Fits(m, s') && SameSlots(s, s') && (s.stop ==> s'.stop)
    decreases bound, 0, |qs|
  {
    if qs == [] then s
    else
      assert qs[0] in qs;
      var r := TryAdvance(m, s, qs[0]);
      if r.ok then r.st else Wake(m, r.st, qs[1..], bound)
  }

  function SetResource(s: State, k: nat, x: ResourceState): State
    requires k < |s.res|
  {
    s.(res := s.res[k := x])
  }

  /** busy++ with the high-water mark. */
  function GrabUnit(s: State, k: nat): State
    requires k < |s.res|
  {
    var x := s.res[k];
    SetResource(s, k, x.(busy := x.busy + 1, maxBusy := Max(x.busy + 1, x.maxBusy)))
  }

  function DropUnit(s: State, k: nat): State
    requires k < |s.res| && s.res[k].busy > 0
  {
    SetResource(s, k, s.res[k].(busy := s.res[k].busy - 1))
  }

  /** A SEIZE went through: the block and the resource count it. */
  function CountSeize(s: State, b: BlockId, k: nat): State
    requires b < |s.blocks| && k < |s.res|
  {
    SetResource(CountPass(s, b), k, s.res[k].(seizeN := s.res[k].seizeN + 1))
  }

  function CountRelease(s: State, b: BlockId, k: nat): State
    requires b < |s.blocks| && k < |s.res|
  {
    SetResource(CountPass(s, b), k, s.res[k].(releaseN := s.res[k].releaseN + 1))
  }

  lemma UnitFits(m: Model, s: State, b: BlockId, k: nat)
    requires Fits(m, s) && b < |s.blocks| && k < |s.res|
    ensures Fits(m, GrabUnit(s, k)) && SameSlots(s, GrabUnit(s, k))
    ensures s.res[k].busy > 0 ==> Fits(m, DropUnit(s, k)) && SameSlots(s, DropUnit(s, k))
    ensures Fits(m, CountSeize(s, b, k)) && SameSlots(s, CountSeize(s, b, k))
    ensures Fits(m, CountRelease(s, b, k)) && SameSlots(s, CountRelease(s, b, k))
  {
    PlainFits(m, s, GrabUnit(s, k));
    if s.res[k].busy > 0 {
      PlainFits(m, s, DropUnit(s, k));
    }
    CountFits(m, s, b);
    PlainFits(m, CountPass(s, b), CountSeize(s, b, k));
    PlainFits(m, CountPass(s, b), CountRelease(s, b, k));
  }

  function EnterSeize(m: Model, s: State, b: BlockId, ref: EntityRef): (r: Outcome)
    requires Ready(m, s, b, ref) && m.blocks[b].Seize?
    ensures Fits(m, r.st) && SameSlots(s, r.st) && (s.stop ==> r.st.stop)
    decreases m.rank[b], 2, 0
  {
    var k := m.blocks[b].resource;
    if s.res[k].busy >= s.res[k].capacity then Outcome(s, false)
    else
      UnitFits(m, s, b, k);
      Reach(m, GrabUnit(s, k), m.blocks[b].next, ref);
      var r := Enter(m, GrabUnit(s, k), m.blocks[b].next, ref);
      UnitFits(m, r.st, b, k);
      if r.ok then Outcome(CountSeize(r.st, b, k), true)
      else
        var undone := SetResource(r.st, k, r.st.res[k].(busy := s.res[k].busy, maxBusy := s.res[k].maxBusy));
        PlainFits(m, r.st, undone);
        Outcome(undone, false)
  }

  function EnterRelease(m: Model, s: State, b: BlockId, ref: EntityRef): (r: Outcome)
    requires Ready(m, s, b, ref) && m.blocks[b].Release?
    ensures Fits(m, r.st) && SameSlots(s, r.st) && (s.stop ==> r.st.stop)
    decreases m.rank[b], 2, 0
  {
    var k := m.blocks[b].resource;
    if s.res[k].busy == 0 then
      PlainFits(m, s, Halt(s, ReleaseOfIdleResource(b)));
      Outcome(Halt(s, ReleaseOfIdleResource(b)), false)
    else
      UnitFits(m, s, b, k);
      Reach(m, DropUnit(s, k), m.blocks[b].next, ref);
      var r := Enter(m, DropUnit(s, k), m.blocks[b].next, ref);
      UnitFits(m, r.st, b, k);
      if r.ok then Outcome(Wake(m, CountRelease(r.st, b, k), WakeList(m, m.resources[k].seizes), m.rank[b]), true)
      else
        var undone := SetResource(r.st, k, r.st.res[k].(busy := s.res[k].busy));
        PlainFits(m, r.st, undone);
        Outcome(undone, false)
  }

  function EnterAssign(m: Model, s: State, b: BlockId, ref: EntityRef): (r: Outcome)
    requires Ready(m, s, b, ref) && m.blocks[b].Assign?
    ensures Fits(m, r.st) && SameSlots(s, r.st) && (s.stop ==> r.st.stop)
    decreases m.rank[b], 2, 0
  {
    var (s1, log) := RunAssignments(m, s, m.blocks[b].assignments, ref);
    Reach(m, s1, m.blocks[b].next, ref);
    var r := Enter(m, s1, m.blocks[b].next, ref);
    if r.ok then
      CountFits(m, r.st, b);
      Outcome(CountPass(r.st, b), true)
    else
      assert forall t :: Writable(m, s, t, ref) ==> Writable(m, r.st, t, ref) by {
        forall t | Writable(m, s, t, ref) ensures Writable(m, r.st, t, ref) { SlotsWritable(m, s, r.st, t, ref); }
      }
      Outcome(UndoAssignments(m, r.st, log, ref), false)
  }

  function EnterBranch(m: Model, s: State, b: BlockId, ref: EntityRef): (r: Outcome)
    requires Ready(m, s, b, ref) && m.blocks[b].Branch?
    ensures Fits(m, r.st) && SameSlots(s, r.st) && (s.stop ==> r.st.stop)
    decreases m.rank[b], 2, 0
  {
    var (s1, chosen) := Choose(m, s, b, ref);
    PlainFits(m, s, s1);
    if chosen.None? then
      PlainFits(m, s1, Halt(s1, NoBranchMatched(b)));
      Outcome(Halt(s1, NoBranchMatched(b)), false)
    else
      Reach(m, s1, chosen.value, ref);
      var r := Enter(m, s1, chosen.value, ref);
      CountFits(m, r.st, b);
      if r.ok then Outcome(CountPass(r.st, b), true) else r
  }

  /** The branch taken: the first case that holds, else the else branch, if there is one. */
  function Choose(m: Model, s: State, b: BlockId, ref: EntityRef): (r: (State, Option<BlockId>))
    requires b < |m.blocks| && m.blocks[b].Branch?
    ensures r.0 == s.(rng := r.0.rng)
    ensures |m.rank| == |m.blocks| && BlockLinked(m, b) && r.1.Some? ==>
              IsTarget(m, r.1.value) && Below(m, r.1.value, b)
  {
    var (s1, chosen) := Select(s, m.blocks[b].cases, ref);
    if chosen.Some? then (s1, chosen) else (s1, m.blocks[b].orElse)
  }

  // ---------- event handlers ----------

  /** One pass of the batch loop: the state, and the entity still in hand if the handler returns. */
  function GenerateOne(m: Model, s: State, c: BlockId): (r: (State, Option<EntityRef>))
    requires Linked(m) && Fits(m, s) && c < |m.blocks| && m.blocks[c].Create?
    ensures Fits(m, r.0) && (s.stop ==> r.0.stop)
    ensures r.1.Some? ==> r.0.stop
  {
    assert BlockLinked(m, c);
    var (s1, ref) := Spawn(m, s, c);
    Reach(m, s1, m.blocks[c].next, ref);
    var r := Enter(m, s1, m.blocks[c].next, ref);
    CountFits(m, r.st, c);
    if r.ok then (CountExit(r.st, c), None)
    else if r.st.stop then (r.st, Some(ref))
    else if m.blocks[c].destroy then (FreeEntity(m, CountDrop(r.st, c), ref), None)
    else
      PlainFits(m, r.st, Halt(r.st, CannotLeave(c)));
      (Halt(r.st, CannotLeave(c)), Some(ref))
  }

  /** n passes of a loop body that may return early, reporting an entity. */
  function Passes(body: State -> (State, Option<EntityRef>), s: State, n: nat): (State, Option<EntityRef>)
    decreases n
  {
    if n == 0 then (s, None)
    else
      var (s1, stranded) := body(s);
      if stranded.Some? then (s1, stranded) else Passes(body, s1, n - 1)
  }

  lemma {:induction false} PassesKeep(body: State -> (State, Option<EntityRef>), inv: State -> bool, s: State, n: nat)
    requires inv(s)
    requires forall u: State {:trigger body(u)} :: inv(u) ==> inv(body(u).0) && (body(u).1.Some? ==> body(u).0.stop)
    ensures var r := Passes(body, s, n); inv(r.0) && (r.1.Some? ==> r.0.stop)
    decreases n
  {
    if n > 0 && body(s).1.None? {
      PassesKeep(body, inv, body(s).0, n - 1);
    }
  }

  ghost function BatchBody(m: Model, c: BlockId): State -> (State, Option<EntityRef>)
    requires Linked(m) && c < |m.blocks| && m.blocks[c].Create?
  {
    (s: State) => if Fits(m, s) then GenerateOne(m, s, c) else (s, None)
  }

  /** The batch loop of a CREATE block; it ends early only with stop set. */
  ghost function Generate(m: Model, s: State, c: BlockId, n: nat): (r: (State, Option<EntityRef>))
    requires Linked(m) && Fits(m, s) && c < |m.blocks| && m.blocks[c].Create?
    ensures Fits(m, r.0) && (s.stop ==> r.0.stop)
    ensures r.1.Some? ==> r.0.stop
  {
    PassesKeep(BatchBody(m, c), (u: State) => Fits(m, u) && (s.stop ==> u.stop), s, n);
    Passes(BatchBody(m, c), s, n)
  }

  /** A CREATE block allocates an entity and counts it. */
  function Spawn(m: Model, s: State, c: BlockId): (r: (State, EntityRef))
    requires Linked(m) && Fits(m, s) && c < |m.blocks| && m.blocks[c].Create?
    ensures Fits(m, r.0) && ValidRef(r.0, r.1)
  {
    assert BlockLinked(m, c);
    var (s1, ref) := Alloc(m, s, m.blocks[c].entity);
    assert QueueFits(s1, s1.blocks[c].waiting);
    WithFits(m, s1, c, s1.blocks[c].(createdN := s1.blocks[c].createdN + 1));
    (With(s1, c, s1.blocks[c].(createdN := s1.blocks[c].createdN + 1)), ref)
  }

  function ScheduleArrival(m: Model, s: State, c: BlockId): (s': State)
    requires Linked(m) && Fits(m, s) && c < |m.blocks| && m.blocks[c].Create?
    ensures Fits(m, s') && s'.stop == s.stop
  {
    var (interval, rng) := m.blocks[c].interval(Look(s));
    PlainFits(m, s, s.(rng := rng));
    ScheduleFits(m, s.(rng := rng), interval, Arrival(c));
    Schedule(s.(rng := rng), interval, Arrival(c))
  }

  ghost function HandleArrival(m: Model, s: State, c: BlockId): (s': State)
    requires Linked(m) && Fits(m, s) && c < |m.blocks| && m.blocks[c].Create?
    ensures Fits(m, s') && (s.stop ==> s'.stop)
  {
    var (n, rng) := m.blocks[c].batch(Look(s));
    PlainFits(m, s, s.(rng := rng));
    var s1 := Generate(m, s.(rng := rng), c, n).0;
    if s1.stop then s1 else ScheduleArrival(m, s1, c)
  }

  function HandleCompletion(m: Model, s: State, d: BlockId, ref: EntityRef): (s': State)
    requires Linked(m) && Fits(m, s) && d < |m.blocks| && m.blocks[d].Delay? && ValidRef(s, ref)
    ensures Fits(m, s') && (s.stop ==> s'.stop)
  {
    assert BlockLinked(m, d);
    Reach(m, s, m.blocks[d].next, ref);
    var r := Enter(m, s, m.blocks[d].next, ref);
    if r.ok then
      var s2 := LeaveDelay(m, r.st, d);
        Wake(m, s2, m.blocks[d].waitQueues, m.top)
    else if r.st.stop then r.st
    else
      PlainFits(m, r.st, Halt(r.st, CannotLeave(d)));
      Halt(r.st, CannotLeave(d))
  }

  /** exitN++ and busy--, the latter guarded as in the emitted code. */
  function LeaveDelay(m: Model, s: State, d: BlockId): (s': State)
    requires Fits(m, s) && d < |s.blocks|
    ensures Fits(m, s') && SameSlots(s, s')
  {
    var x := s.blocks[d];
    var x' := x.(exitN := x.exitN + 1, busy := if x.busy > 0 then x.busy - 1 else x.busy);
    WithFits(m, s, d, x');
    With(s, d, x')
  }

  function HandleTimeout(m: Model, s: State, b: BlockId, ticket: nat): (s': State)
    requires Linked(m) && Fits(m, s) && IsQueue(m, b) && m.blocks[b].timeout.Some?
    ensures Fits(m, s') && (s.stop ==> s'.stop)
  {
    var ws := s.blocks[b].waiting;
    var i := Find(ws, ticket);
    if i.None? then s
    else
      assert BlockLinked(m, b) && QueueFits(s, ws);
      var s1 := Expire(m, s, b, i.value);
      Reach(m, s1, m.blocks[b].timeout.value.next, ws[i.value].ref);
      var r := Enter(m, s1, m.blocks[b].timeout.value.next, ws[i.value].ref);
      if r.ok || r.st.stop then r.st
      else
        PlainFits(m, r.st, Halt(r.st, CannotLeaveTimeout(b)));
        Halt(r.st, CannotLeaveTimeout(b))
  }

  /** The waiting entity at position i leaves the queue because its time is up. */
  function Expire(m: Model, s: State, b: BlockId, i: nat): (s': State)
    requires Fits(m, s) && b < |s.blocks| && i < |s.blocks[b].waiting|
    ensures Fits(m, s') && SameSlots(s, s')
  {
    var x := s.blocks[b];
    assert QueueFits(s, x.waiting);
    WithFits(m, s, b, x.(waiting := RemoveAt(x.waiting, i), timeoutN := x.timeoutN + 1));
    With(s, b, x.(waiting := RemoveAt(x.waiting, i), timeoutN := x.timeoutN + 1))
  }

  ghost function Handle(m: Model, s: State, a: Action): (s': State)
    requires Linked(m) && Fits(m, s) && ActionFits(m, s, a)
    ensures Fits(m, s') && (s.stop ==> s'.stop)
  {
    match a
    case Arrival(c) => HandleArrival(m, s, c)
    case Completion(d, ref) => HandleCompletion(m, s, d, ref)
    case Timeout(q, ticket) => HandleTimeout(m, s, q, ticket)
  }

  // ---------- the run ----------

  /** The event taken off the list and the clock set to its time. */
  function Take(m: Model, s: State, i: nat): (s': State)
    requires Fits(m, s) && i < |s.pending|
    ensures Fits(m, s') && SameSlots(s, s')
  {
    var s' := s.(pending := RemoveAt(s.pending, i), clock := s.pending[i].time);
    SlotsFit(m, s, s');
    s'
  }

  function CheckStopRule(m: Model, s: State): State {
    if !s.stop && m.stopRule.Some? && m.stopRule.value(Look(s)) then Halt(s, StopRuleMet) else s
  }

  /** One turn of the run loop with the event at position i of the pending list. */
  ghost function Step(m: Model, s: State, i: nat): (s': State)
    requires Linked(m) && Fits(m, s) && i < |s.pending|
    ensures Fits(m, s') && (s.stop ==> s'.stop)
  {
    assert EventFits(m, s, s.pending[i]);
    var s1 := Handle(m, Take(m, s, i), s.pending[i].handler.action);
    PlainFits(m, s1, CheckStopRule(m, s1));
    CheckStopRule(m, s1)
  }

  /** A turn can handle position i: the run is not stopped and no pending event is earlier. */
  predicate Next(s: State, i: nat) {
    i < |s.pending| && !s.stop && forall e <- s.pending :: s.pending[i].time <= e.time
  }

  function Initial(m: Model, vars: seq<Value>, rng: nat): (s: State)
    requires |vars| == |m.vars|
    ensures Fits(m, s)
  {
    var s := State(0.0, false, NotStopped, rng, vars,
                   seq(|m.entities|, i => PoolState([], [])),
                   seq(|m.resources|, k requires 0 <= k < |m.resources| =>
                     ResourceState(m.resources[k].capacity, 0, 0, 0, 0)),
                   seq(|m.blocks|, b => FRESH_BLOCK), []);
    s
  }

  /** startCreateBlocks from block b on: an immediate CREATE runs at once, the others wait an interval. */
  ghost function StartFrom(m: Model, s: State, b: nat): (s': State)
    requires Linked(m) && Fits(m, s) && b <= |m.blocks|
    ensures Fits(m, s') && (s.stop ==> s'.stop)
    decreases |m.blocks| - b
  {
    if b == |m.blocks| then s
    else if !m.blocks[b].Create? then StartFrom(m, s, b + 1)
    else if m.blocks[b].immediately then StartFrom(m, HandleArrival(m, s, b), b + 1)
    else StartFrom(m, ScheduleArrival(m, s, b), b + 1)
  }
}
