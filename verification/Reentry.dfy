/** What the emitted block functions do on any graph, cyclic or not: the kernel's interpreter without
    its numbering, cut off after a number of nested calls. */
module Reentry {
  import opened Options
  import opened SimModel
  import opened Semantics

  /** What linking and type checking guarantee, without the numbering. */
  ghost predicate BlockWired(m: Model, a: BlockId)
    requires a < |m.blocks|
  {
    match m.blocks[a]
    case Create(entity, _, _, _, _, next) => 1 <= entity <= |m.entities| && IsTarget(m, next)
    case Queue(_, timeout, overflow, next) =>
      && IsTarget(m, next)
      && (timeout.Some? ==> IsTarget(m, timeout.value.next))
      && (overflow.Some? ==> IsTarget(m, overflow.value))
    case Delay(_, _, waitQueues, next) => IsTarget(m, next) && forall q <- waitQueues :: IsQueue(m, q)
    case Seize(resource, _, next) => resource < |m.resources| && IsTarget(m, next)
    case Release(resource, next) =>
      && resource < |m.resources| && IsTarget(m, next)
      && forall q <- WakeList(m, m.resources[resource].seizes) :: IsQueue(m, q)
    case Assign(assignments, next) => IsTarget(m, next) && forall x <- assignments :: TargetFits(m, x.target)
    case Branch(cases, orElse) =>
      && (forall c <- cases :: IsTarget(m, c.next))
      && (orElse.Some? ==> IsTarget(m, orElse.value))
    case Terminate => true
  }

  ghost predicate Wired(m: Model) {
    forall a: nat :: a < |m.blocks| ==> BlockWired(m, a)
  }

  lemma LinkedIsWired(m: Model)
    requires Linked(m)
    ensures Wired(m)
  {
    forall a: nat | a < |m.blocks|
      ensures BlockWired(m, a)
    {
      assert BlockLinked(m, a);
    }
  }

  /** An entity can be offered to block b. */
  ghost predicate Offered(m: Model, s: State, b: BlockId, ref: EntityRef) {
    Wired(m) && Fits(m, s) && IsTarget(m, b) && ValidRef(s, ref)
  }

  ghost predicate Kept(m: Model, s: State, r: Option<Outcome>) {
    r.Some? ==> Fits(m, r.value.st) && SameSlots(s, r.value.st)
  }

  /** Hands an entity to a block; None if more than fuel calls would be nested. */
  ghost function Hand(m: Model, s: State, b: BlockId, ref: EntityRef, fuel: nat): (r: Option<Outcome>)
    requires Offered(m, s, b, ref)
    ensures Kept(m, s, r)
    decreases fuel, 1, 0
  {
    assert BlockWired(m, b);
    if fuel == 0 then None
    else
      match m.blocks[b]
      case Queue(_, _, _, _) => HandQueue(m, s, b, ref, fuel)
      case Delay(_, _, _, _) => Some(EnterDelay(m, s, b, ref))
      case Seize(_, _, _) => HandSeize(m, s, b, ref, fuel)
      case Release(_, _) => HandRelease(m, s, b, ref, fuel)
      case Assign(_, _) => HandAssign(m, s, b, ref, fuel)
      case Branch(_, _) => HandBranch(m, s, b, ref, fuel)
      case Terminate => Some(EnterTerminate(m, s, b, ref))
  }

  ghost function HandQueue(m: Model, s: State, b: BlockId, ref: EntityRef, fuel: nat): (r: Option<Outcome>)
    requires Offered(m, s, b, ref) && m.blocks[b].Queue? && fuel > 0
    ensures Kept(m, s, r)
    decreases fuel, 0, 0
  {
    assert BlockWired(m, b);
    var q := m.blocks[b];
    var (full, s0) := AtCapacity(s, q.capacity, |s.blocks[b].waiting|);
    PlainFits(m, s, s0);
    CountFits(m, s0, b);
    var s1 := CountEnter(s0, b);
    if full then
      if q.overflow.None? then Some(Outcome(s0, false))
      else
        CountFits(m, s1, b);
        Hand(m, CountDrop(s1, b), q.overflow.value, ref, fuel - 1)
    else
      var admitted := Admit(m, s1, b, ref);
      if !admitted.ok then Some(admitted)
      else
        var r := HandHead(m, admitted.st, b, fuel - 1);
        if r.None? then None else Some(Outcome(r.value.st, true))
  }

  /** Offers the head of a queue on, and removes the head then if the offer was taken. */
  ghost function HandHead(m: Model, s: State, b: BlockId, fuel: nat): (r: Option<Outcome>)
    requires Wired(m) && Fits(m, s) && IsQueue(m, b)
    ensures Kept(m, s, r)
    decreases fuel, 1, 0
  {
    assert BlockWired(m, b) && QueueFits(s, s.blocks[b].waiting);
    var ws := s.blocks[b].waiting;
    if fuel == 0 then None
    else if ws == [] then Some(Outcome(s, false))
    else
      var r := Hand(m, s, m.blocks[b].next, ws[0].ref, fuel - 1);
      if r.None? then None
      else if !r.value.ok then Some(Outcome(r.value.st, false))
      else
        DeleteHeadFits(m, r.value.st, b);
        CountFits(m, DeleteHead(r.value.st, b), b);
        Some(Outcome(CountExit(DeleteHead(r.value.st, b), b), true))
  }

  ghost function HandQueues(m: Model, s: State, qs: seq<BlockId>, fuel: nat): (r: Option<State>)
    requires Wired(m) && Fits(m, s) && forall q <- qs :: IsQueue(m, q)
    ensures r.Some? ==> Fits(m, r.value) && SameSlots(s, r.value)
    decreases fuel, 2, |qs|
  {
    if qs == [] then Some(s)
    else
      assert qs[0] in qs;
      var r := HandHead(m, s, qs[0], fuel);
      if r.None? then None
      else if r.value.ok then Some(r.value.st)
      else HandQueues(m, r.value.st, qs[1..], fuel)
  }

  ghost function HandSeize(m: Model, s: State, b: BlockId, ref: EntityRef, fuel: nat): (r: Option<Outcome>)
    requires Offered(m, s, b, ref) && m.blocks[b].Seize? && fuel > 0
    ensures Kept(m, s, r)
    decreases fuel, 0, 0
  {
    assert BlockWired(m, b);
    var k := m.blocks[b].resource;
    if s.res[k].busy >= s.res[k].capacity then Some(Outcome(s, false))
    else
      UnitFits(m, s, b, k);
      var r := Hand(m, GrabUnit(s, k), m.blocks[b].next, ref, fuel - 1);
      if r.None? then None
      else
        var t := r.value.st;
        UnitFits(m, t, b, k);
        if r.value.ok then Some(Outcome(CountSeize(t, b, k), true))
        else
          var undone := SetResource(t, k, t.res[k].(busy := s.res[k].busy, maxBusy := s.res[k].maxBusy));
          PlainFits(m, t, undone);
          Some(Outcome(undone, false))
  }

  ghost function HandRelease(m: Model, s: State, b: BlockId, ref: EntityRef, fuel: nat): (r: Option<Outcome>)
    requires Offered(m, s, b, ref) && m.blocks[b].Release? && fuel > 0
    ensures Kept(m, s, r)
    decreases fuel, 0, 0
  {
    assert BlockWired(m, b);
    var k := m.blocks[b].resource;
    if s.res[k].busy == 0 then
      PlainFits(m, s, Halt(s, ReleaseOfIdleResource(b)));
      Some(Outcome(Halt(s, ReleaseOfIdleResource(b)), false))
    else
      UnitFits(m, s, b, k);
      var r := Hand(m, DropUnit(s, k), m.blocks[b].next, ref, fuel - 1);
      if r.None? then None
      else
        var t := r.value.st;
        UnitFits(m, t, b, k);
        if r.value.ok then
          var woken := HandQueues(m, CountRelease(t, b, k), WakeList(m, m.resources[k].seizes), fuel - 1);
          if woken.None? then None else Some(Outcome(woken.value, true))
        else
          var undone := SetResource(t, k, t.res[k].(busy := s.res[k].busy));
          PlainFits(m, t, undone);
          Some(Outcome(undone, false))
  }

  ghost function HandAssign(m: Model, s: State, b: BlockId, ref: EntityRef, fuel: nat): (r: Option<Outcome>)
    requires Offered(m, s, b, ref) && m.blocks[b].Assign? && fuel > 0
    ensures Kept(m, s, r)
    decreases fuel, 0, 0
  {
    assert BlockWired(m, b);
    var (s1, log) := RunAssignments(m, s, m.blocks[b].assignments, ref);
    var r := Hand(m, s1, m.blocks[b].next, ref, fuel - 1);
    if r.None? then None
    else
      var t := r.value.st;
      if r.value.ok then
        CountFits(m, t, b);
        Some(Outcome(CountPass(t, b), true))
      else
        assert forall x :: Writable(m, s, x, ref) ==> Writable(m, t, x, ref) by {
          forall x | Writable(m, s, x, ref) ensures Writable(m, t, x, ref) { SlotsWritable(m, s, t, x, ref); }
        }
        Some(Outcome(UndoAssignments(m, t, log, ref), false))
  }

  ghost function HandBranch(m: Model, s: State, b: BlockId, ref: EntityRef, fuel: nat): (r: Option<Outcome>)
    requires Offered(m, s, b, ref) && m.blocks[b].Branch? && fuel > 0
    ensures Kept(m, s, r)
    decreases fuel, 0, 0
  {
    assert BlockWired(m, b);
    var (s1, chosen) := Choose(m, s, b, ref);
    PlainFits(m, s, s1);
    if chosen.None? then
      PlainFits(m, s1, Halt(s1, NoBranchMatched(b)));
      Some(Outcome(Halt(s1, NoBranchMatched(b)), false))
    else
      var r := Hand(m, s1, chosen.value, ref, fuel - 1);
      if r.None? then None
      else
        CountFits(m, r.value.st, b);
        if r.value.ok then Some(Outcome(CountPass(r.value.st, b), true)) else r
  }

  // ---------- the same as the kernel where calls go down ----------

  /** The cut-off interpreter is the kernel's wherever it gives an answer, and gives one if need be. */
  ghost predicate Agrees(r: Option<Outcome>, full: Outcome, enough: bool) {
    if enough then r == Some(full) else r.None? || r == Some(full)
  }

  lemma ReadyIsOffered(m: Model, s: State, b: BlockId, ref: EntityRef)
    requires Ready(m, s, b, ref)
    ensures Offered(m, s, b, ref)
  {
    LinkedIsWired(m);
  }

  /** On a graph with a numbering, 2 * rank + 2 nested calls are enough. */
  lemma {:induction false} HandAgrees(m: Model, s: State, b: BlockId, ref: EntityRef, fuel: nat)
    requires Ready(m, s, b, ref)
    ensures Offered(m, s, b, ref)
    ensures Agrees(Hand(m, s, b, ref, fuel), Enter(m, s, b, ref), fuel >= 2 * m.rank[b] + 2)
    decreases fuel, 1
  {
    ReadyIsOffered(m, s, b, ref);
    if fuel > 0 {
      match m.blocks[b]
      case Queue(_, _, _, _) => QueueAgrees(m, s, b, ref, fuel);
      case Delay(_, _, _, _) =>
      case Seize(_, _, _) => SeizeAgrees(m, s, b, ref, fuel);
      case Release(_, _) => ReleaseAgrees(m, s, b, ref, fuel);
      case Assign(_, _) => AssignAgrees(m, s, b, ref, fuel);
      case Branch(_, _) => BranchAgrees(m, s, b, ref, fuel);
      case Terminate =>
    }
  }

  lemma {:induction false} QueueAgrees(m: Model, s: State, b: BlockId, ref: EntityRef, fuel: nat)
    requires Ready(m, s, b, ref) && Offered(m, s, b, ref) && m.blocks[b].Queue? && fuel > 0
    ensures Agrees(HandQueue(m, s, b, ref, fuel), EnterQueue(m, s, b, ref), fuel >= 2 * m.rank[b] + 2)
    decreases fuel, 0
  {
    var q := m.blocks[b];
    var (full, s0) := AtCapacity(s, q.capacity, |s.blocks[b].waiting|);
    PlainFits(m, s, s0);
    CountFits(m, s0, b);
    var s1 := CountEnter(s0, b);
    if full && q.overflow.Some? {
      CountFits(m, s1, b);
      Reach(m, CountDrop(s1, b), q.overflow.value, ref);
      HandAgrees(m, CountDrop(s1, b), q.overflow.value, ref, fuel - 1);
    } else if !full && Admit(m, s1, b, ref).ok {
      HeadAgrees(m, Admit(m, s1, b, ref).st, b, fuel - 1);
    }
  }

  lemma {:induction false} HeadAgrees(m: Model, s: State, b: BlockId, fuel: nat)
    requires Linked(m) && Wired(m) && Fits(m, s) && IsQueue(m, b)
    ensures Agrees(HandHead(m, s, b, fuel), TryAdvance(m, s, b), fuel >= 2 * m.rank[b] + 1)
    decreases fuel, 1
  {
    var ws := s.blocks[b].waiting;
    if fuel > 0 && ws != [] {
      assert BlockLinked(m, b) && QueueFits(s, ws);
      Reach(m, s, m.blocks[b].next, ws[0].ref);
      HandAgrees(m, s, m.blocks[b].next, ws[0].ref, fuel - 1);
    }
  }

  lemma {:induction false} QueuesAgree(m: Model, s: State, qs: seq<BlockId>, bound: nat, fuel: nat)
    requires Linked(m) && Wired(m) && Fits(m, s) && forall q <- qs :: IsQueue(m, q) && m.rank[q] < bound
    ensures var r := HandQueues(m, s, qs, fuel);
            && (r.Some? ==> r.value == Wake(m, s, qs, bound))
            && (fuel + 1 >= 2 * bound ==> r.Some?)
    decreases fuel, 2, |qs|
  {
    if qs != [] {
      assert qs[0] in qs;
      HeadAgrees(m, s, qs[0], fuel);
      if !TryAdvance(m, s, qs[0]).ok && HandHead(m, s, qs[0], fuel).Some? {
        QueuesAgree(m, TryAdvance(m, s, qs[0]).st, qs[1..], bound, fuel);
      }
    }
  }

  lemma {:induction false} SeizeAgrees(m: Model, s: State, b: BlockId, ref: EntityRef, fuel: nat)
    requires Ready(m, s, b, ref) && Offered(m, s, b, ref) && m.blocks[b].Seize? && fuel > 0
    ensures Agrees(HandSeize(m, s, b, ref, fuel), EnterSeize(m, s, b, ref), fuel >= 2 * m.rank[b] + 2)
    decreases fuel, 0
  {
    var k := m.blocks[b].resource;
    if s.res[k].busy < s.res[k].capacity {
      UnitFits(m, s, b, k);
      Reach(m, GrabUnit(s, k), m.blocks[b].next, ref);
      HandAgrees(m, GrabUnit(s, k), m.blocks[b].next, ref, fuel - 1);
    }
  }

  lemma {:induction false} ReleaseAgrees(m: Model, s: State, b: BlockId, ref: EntityRef, fuel: nat)
    requires Ready(m, s, b, ref) && Offered(m, s, b, ref) && m.blocks[b].Release? && fuel > 0
    ensures Agrees(HandRelease(m, s, b, ref, fuel), EnterRelease(m, s, b, ref), fuel >= 2 * m.rank[b] + 2)
    decreases fuel, 0
  {
    hide Enter, Hand, Wake, HandQueues;
    var k := m.blocks[b].resource;
    if s.res[k].busy > 0 {
      UnitFits(m, s, b, k);
      Reach(m, DropUnit(s, k), m.blocks[b].next, ref);
      HandAgrees(m, DropUnit(s, k), m.blocks[b].next, ref, fuel - 1);
      var r := Enter(m, DropUnit(s, k), m.blocks[b].next, ref);
      if r.ok {
        UnitFits(m, r.st, b, k);
        QueuesAgree(m, CountRelease(r.st, b, k), WakeList(m, m.resources[k].seizes), m.rank[b], fuel - 1);
      }
    }
  }

  lemma {:induction false} AssignAgrees(m: Model, s: State, b: BlockId, ref: EntityRef, fuel: nat)
    requires Ready(m, s, b, ref) && Offered(m, s, b, ref) && m.blocks[b].Assign? && fuel > 0
    ensures Agrees(HandAssign(m, s, b, ref, fuel), EnterAssign(m, s, b, ref), fuel >= 2 * m.rank[b] + 2)
    decreases fuel, 0
  {
    var s1 := RunAssignments(m, s, m.blocks[b].assignments, ref).0;
    Reach(m, s1, m.blocks[b].next, ref);
    HandAgrees(m, s1, m.blocks[b].next, ref, fuel - 1);
  }

  lemma {:induction false} BranchAgrees(m: Model, s: State, b: BlockId, ref: EntityRef, fuel: nat)
    requires Ready(m, s, b, ref) && Offered(m, s, b, ref) && m.blocks[b].Branch? && fuel > 0
    ensures Agrees(HandBranch(m, s, b, ref, fuel), EnterBranch(m, s, b, ref), fuel >= 2 * m.rank[b] + 2)
    decreases fuel, 0
  {
    var (s1, chosen) := Choose(m, s, b, ref);
    PlainFits(m, s, s1);
    if chosen.Some? {
      Reach(m, s1, chosen.value, ref);
      HandAgrees(m, s1, chosen.value, ref, fuel - 1);
    }
  }
}
