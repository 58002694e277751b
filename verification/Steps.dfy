/** A second induction principle, for relations: if every single step of a transfer is in a
    transitive relation, so is the whole transfer, and so is the handling of a whole event. */
module Steps {
  import opened Options
  import opened SimModel
  import opened Semantics
  import opened Transactions
  import opened Potentials

  type Relation = (State, State) -> bool

  ghost predicate Composes(rel: Relation) {
    forall s, t, u {:trigger rel(s, t), rel(t, u)} :: rel(s, t) && rel(t, u) ==> rel(s, u)
  }

  /** Steps that move no entity. */
  ghost predicate QuietSteps(m: Model, rel: Relation) {
    && (forall s, s' {:trigger RolledBack(m, s, s')} :: Fits(m, s) && RolledBack(m, s, s') ==> rel(s, s'))
    && (forall s, s' {:trigger SameFlow(s, s')} :: Fits(m, s) && SameFlow(s, s') && (s.stop ==> s'.stop) ==> rel(s, s'))
    && (forall s, b: nat {:trigger CountPass(s, b)} ::
         Fits(m, s) && b < |m.blocks| && PassesThrough(m.blocks[b]) ==> rel(s, CountPass(s, b)))
  }

  /** The capacity of queue b, if it has one, allowed one entity more at some position of the stream. */
  ghost predicate MayAdmit(m: Model, s: State, b: BlockId)
    requires IsQueue(m, b)
  {
    b < |s.blocks| && (m.blocks[b].capacity.Some? ==>
      exists p: nat :: |s.blocks[b].waiting| < m.blocks[b].capacity.value(Look(s.(rng := p))).0)
  }

  /** Steps of a queue. Admission counts together with the attempt to advance that follows it. */
  ghost predicate QueueSteps(m: Model, rel: Relation) {
    && (forall s, b: nat, ref {:trigger Admit(m, CountEnter(s, b), b, ref)} ::
          Ready(m, s, b, ref) && IsQueue(m, b) && Ready(m, CountEnter(s, b), b, ref) && MayAdmit(m, s, b) ==>
            var r := Admit(m, CountEnter(s, b), b, ref);
            r.ok && rel(r.st, TryAdvance(m, r.st, b).st) ==> rel(s, TryAdvance(m, r.st, b).st))
    && (forall s, b: nat {:trigger DeleteHead(s, b)} :: Fits(m, s) && IsQueue(m, b) && s.blocks[b].waiting != []
          ==> rel(s, CountExit(DeleteHead(s, b), b)))
  }

  ghost predicate HoldSteps(m: Model, rel: Relation) {
    && (forall s, k: nat {:trigger GrabUnit(s, k)} ::
         Fits(m, s) && k < |s.res| && s.res[k].busy < s.res[k].capacity ==> rel(s, GrabUnit(s, k)))
    && (forall s, k: nat {:trigger DropUnit(s, k)} ::
         Fits(m, s) && k < |s.res| && s.res[k].busy > 0 ==> rel(s, DropUnit(s, k)))
    && (forall s, b: nat, k: nat {:trigger CountSeize(s, b, k)} ::
         Fits(m, s) && b < |m.blocks| && PassesThrough(m.blocks[b]) && k < |s.res| ==> rel(s, CountSeize(s, b, k)))
    && (forall s, b: nat, k: nat {:trigger CountRelease(s, b, k)} ::
         Fits(m, s) && b < |m.blocks| && PassesThrough(m.blocks[b]) && k < |s.res| ==> rel(s, CountRelease(s, b, k)))
  }

  ghost predicate PlaceSteps(m: Model, rel: Relation) {
    && (forall s, b: nat, ref {:trigger EnterDelay(m, s, b, ref)} ::
         Ready(m, s, b, ref) && m.blocks[b].Delay? && EnterDelay(m, s, b, ref).ok ==>
           rel(s, EnterDelay(m, s, b, ref).st))
    && (forall s, b: nat, ref {:trigger EnterTerminate(m, s, b, ref)} :: Ready(m, s, b, ref) && m.blocks[b].Terminate?
          ==> rel(s, EnterTerminate(m, s, b, ref).st))
  }

  ghost predicate Closed(m: Model, rel: Relation) {
    Composes(rel) && QuietSteps(m, rel) && QueueSteps(m, rel) && HoldSteps(m, rel) && PlaceSteps(m, rel)
  }

  // ---------- transfers ----------

  lemma {:induction false} TransferSteps(m: Model, rel: Relation, s: State, b: BlockId, ref: EntityRef)
    requires Closed(m, rel) && Ready(m, s, b, ref)
    ensures rel(s, Enter(m, s, b, ref).st)
    decreases m.rank[b], 3
  {
    if !Enter(m, s, b, ref).ok {
      RefusedTransferLeavesNoTrace(m, s, b, ref);
    } else {
      match m.blocks[b]
      case Queue(_, _, _, _) => QueueTransferSteps(m, rel, s, b, ref);
      case Delay(_, _, _, _) =>
      case Seize(_, _, _) => SeizeSteps(m, rel, s, b, ref);
      case Release(_, _) => ReleaseSteps(m, rel, s, b, ref);
      case Assign(_, _) => AssignSteps(m, rel, s, b, ref);
      case Branch(_, _) => BranchSteps(m, rel, s, b, ref);
      case Terminate =>
    }
  }

  lemma {:induction false} QueueTransferSteps(m: Model, rel: Relation, s: State, b: BlockId, ref: EntityRef)
    requires Closed(m, rel) && Ready(m, s, b, ref) && m.blocks[b].Queue? && EnterQueue(m, s, b, ref).ok
    ensures rel(s, EnterQueue(m, s, b, ref).st)
    decreases m.rank[b], 2
  {
    var q := m.blocks[b];
    var (full, s0) := AtCapacity(s, q.capacity, |s.blocks[b].waiting|);
    PlainFits(m, s, s0);
    CountFits(m, s0, b);
    var s1 := CountEnter(s0, b);
    if full {
      CountFits(m, s1, b);
      OverflowIsQuiet(m, rel, s, s0, b);
      Reach(m, CountDrop(s1, b), q.overflow.value, ref);
      TransferSteps(m, rel, CountDrop(s1, b), q.overflow.value, ref);
    } else {
      RoomLeft(m, s, s0, b);
      AdmissionSteps(m, rel, s, s0, b, ref);
    }
  }

  lemma RoomLeft(m: Model, s: State, s0: State, b: BlockId)
    requires IsQueue(m, b) && b < |s.blocks|
    requires AtCapacity(s, m.blocks[b].capacity, |s.blocks[b].waiting|) == (false, s0)
    ensures MayAdmit(m, s0, b)
  {
    if m.blocks[b].capacity.Some? {
      assert s == s0.(rng := s.rng);
      assert |s0.blocks[b].waiting| < m.blocks[b].capacity.value(Look(s0.(rng := s.rng))).0;
    }
  }

  lemma {:induction false} AdmissionSteps(m: Model, rel: Relation, s: State, s0: State, b: BlockId, ref: EntityRef)
    requires Closed(m, rel) && Ready(m, s, b, ref) && IsQueue(m, b) && Ready(m, s0, b, ref)
             && Ready(m, CountEnter(s0, b), b, ref) && MayAdmit(m, s0, b)
    requires s0 == s.(rng := s0.rng) && Admit(m, CountEnter(s0, b), b, ref).ok
    ensures rel(s, TryAdvance(m, Admit(m, CountEnter(s0, b), b, ref).st, b).st)
    decreases m.rank[b], 2, 0
  {
    assert SameFlow(s, s0);
    AdvanceSteps(m, rel, Admit(m, CountEnter(s0, b), b, ref).st, b);
  }

  lemma OverflowIsQuiet(m: Model, rel: Relation, s: State, s0: State, b: BlockId)
    requires QuietSteps(m, rel) && Fits(m, s) && IsQueue(m, b) && s0 == s.(rng := s0.rng)
    ensures rel(s, CountDrop(CountEnter(s0, b), b))
  {
    assert RolledBack(m, s, CountDrop(CountEnter(s0, b), b));
  }

  lemma {:induction false} AdvanceSteps(m: Model, rel: Relation, s: State, b: BlockId)
    requires Closed(m, rel) && Linked(m) && Fits(m, s) && IsQueue(m, b)
    ensures rel(s, TryAdvance(m, s, b).st)
    decreases m.rank[b], 1
  {
    if !TryAdvance(m, s, b).ok {
      RefusedAdvanceLeavesNoTrace(m, s, b);
    } else {
      var ws := s.blocks[b].waiting;
      assert BlockLinked(m, b) && QueueFits(s, ws);
      Reach(m, s, m.blocks[b].next, ws[0].ref);
      TransferSteps(m, rel, s, m.blocks[b].next, ws[0].ref);
      HeadStaysDuringOffer(m, s, b);
    }
  }

  lemma {:induction false} WakeSteps(m: Model, rel: Relation, s: State, qs: seq<BlockId>, bound: nat)
    requires Closed(m, rel) && Linked(m) && Fits(m, s)
    requires forall q <- qs :: IsQueue(m, q) && m.rank[q] < bound
    ensures rel(s, Wake(m, s, qs, bound))
    decreases bound, 0, |qs|
  {
    if qs == [] {
      assert SameFlow(s, s);
    } else {
      assert qs[0] in qs;
      AdvanceSteps(m, rel, s, qs[0]);
      WakeSteps(m, rel, TryAdvance(m, s, qs[0]).st, qs[1..], bound);
    }
  }

  lemma {:induction false} SeizeSteps(m: Model, rel: Relation, s: State, b: BlockId, ref: EntityRef)
    requires Closed(m, rel) && Ready(m, s, b, ref) && m.blocks[b].Seize? && EnterSeize(m, s, b, ref).ok
    ensures rel(s, EnterSeize(m, s, b, ref).st)
    decreases m.rank[b], 2
  {
    var k, next := m.blocks[b].resource, m.blocks[b].next;
    UnitFits(m, s, b, k);
    Reach(m, GrabUnit(s, k), next, ref);
    TransferSteps(m, rel, GrabUnit(s, k), next, ref);
  }

  lemma {:induction false} ReleaseSteps(m: Model, rel: Relation, s: State, b: BlockId, ref: EntityRef)
    requires Closed(m, rel) && Ready(m, s, b, ref) && m.blocks[b].Release? && EnterRelease(m, s, b, ref).ok
    ensures rel(s, EnterRelease(m, s, b, ref).st)
    decreases m.rank[b], 2
  {
    var k, next := m.blocks[b].resource, m.blocks[b].next;
    UnitFits(m, s, b, k);
    Reach(m, DropUnit(s, k), next, ref);
    TransferSteps(m, rel, DropUnit(s, k), next, ref);
    var r := Enter(m, DropUnit(s, k), next, ref);
    UnitFits(m, r.st, b, k);
    WakeSteps(m, rel, CountRelease(r.st, b, k), WakeList(m, m.resources[k].seizes), m.rank[b]);
  }

  lemma {:induction false} AssignSteps(m: Model, rel: Relation, s: State, b: BlockId, ref: EntityRef)
    requires Closed(m, rel) && Ready(m, s, b, ref) && m.blocks[b].Assign? && EnterAssign(m, s, b, ref).ok
    ensures rel(s, EnterAssign(m, s, b, ref).st)
    decreases m.rank[b], 2
  {
    var xs, next := m.blocks[b].assignments, m.blocks[b].next;
    var (s1, log) := RunAssignments(m, s, xs, ref);
    AssignmentsTouchStoreOnly(m, s, xs, ref);
    StoreChangesKeepFlow(m, s, xs, ref);
    Reach(m, s1, next, ref);
    TransferSteps(m, rel, s1, next, ref);
  }

  lemma {:induction false} BranchSteps(m: Model, rel: Relation, s: State, b: BlockId, ref: EntityRef)
    requires Closed(m, rel) && Ready(m, s, b, ref) && m.blocks[b].Branch? && EnterBranch(m, s, b, ref).ok
    ensures rel(s, EnterBranch(m, s, b, ref).st)
    decreases m.rank[b], 2
  {
    var (s1, chosen) := Choose(m, s, b, ref);
    PlainFits(m, s, s1);
    assert SameFlow(s, s1);
    Reach(m, s1, chosen.value, ref);
    TransferSteps(m, rel, s1, chosen.value, ref);
  }

  // ---------- events ----------

  ghost predicate CreateSteps(m: Model, rel: Relation) {
    && (forall s, c: nat {:trigger Spawn(m, s, c)} ::
         Linked(m) && Fits(m, s) && c < |m.blocks| && m.blocks[c].Create? ==> rel(s, Spawn(m, s, c).0))
    && (forall s, c: nat {:trigger CountExit(s, c)} ::
         Fits(m, s) && c < |m.blocks| && m.blocks[c].Create? ==> rel(s, CountExit(s, c)))
    && (forall s, c: nat, ref {:trigger FreeEntity(m, CountDrop(s, c), ref)} ::
          Fits(m, s) && c < |m.blocks| && m.blocks[c].Create? && ValidRef(s, ref) && Fits(m, CountDrop(s, c)) ==>
              rel(s, FreeEntity(m, CountDrop(s, c), ref)))
  }

  ghost predicate ExpirySteps(m: Model, rel: Relation) {
    forall s, q: nat, i: nat {:trigger Expire(m, s, q, i)} ::
      Fits(m, s) && IsQueue(m, q) && i < |s.blocks[q].waiting| ==> rel(s, Expire(m, s, q, i))
  }

  ghost predicate ArrivalSteps(m: Model, rel: Relation, c: BlockId) {
    forall s {:trigger ScheduleArrival(m, s, c)} ::
      Linked(m) && Fits(m, s) && c < |m.blocks| && m.blocks[c].Create? ==> rel(s, ScheduleArrival(m, s, c))
  }

  ghost predicate LeaveSteps(m: Model, rel: Relation, d: BlockId) {
    forall s {:trigger LeaveDelay(m, s, d)} ::
      Fits(m, s) && d < |m.blocks| && m.blocks[d].Delay? ==> rel(s, LeaveDelay(m, s, d))
  }

  lemma GenerateOneSteps(m: Model, rel: Relation, s: State, c: BlockId)
    requires Closed(m, rel) && CreateSteps(m, rel)
    requires Linked(m) && Fits(m, s) && c < |m.blocks| && m.blocks[c].Create?
    ensures rel(s, GenerateOne(m, s, c).0)
  {
    assert BlockLinked(m, c);
    var (s1, ref) := Spawn(m, s, c);
    Reach(m, s1, m.blocks[c].next, ref);
    TransferSteps(m, rel, s1, m.blocks[c].next, ref);
    var r := Enter(m, s1, m.blocks[c].next, ref);
    CountFits(m, r.st, c);
    assert SameFlow(r.st, Halt(r.st, CannotLeave(c)));
  }

  ghost predicate BodySteps(m: Model, rel: Relation, body: State -> (State, Option<EntityRef>)) {
    forall u: State {:trigger body(u)} :: Fits(m, u) ==> rel(u, body(u).0) && Fits(m, body(u).0)
  }

  ghost predicate Reflexive(m: Model, rel: Relation) {
    forall s {:trigger rel(s, s)} :: Fits(m, s) ==> rel(s, s)
  }

  lemma {:induction false} PassesSteps(m: Model, rel: Relation, body: State -> (State, Option<EntityRef>), s: State,
                                       n: nat)
    requires Composes(rel) && Reflexive(m, rel) && BodySteps(m, rel, body) && Fits(m, s)
    ensures rel(s, Passes(body, s, n).0)
    decreases n
  {
    if n > 0 && body(s).1.None? {
      PassesSteps(m, rel, body, body(s).0, n - 1);
    }
  }

  lemma QuietIsReflexive(m: Model, rel: Relation)
    requires QuietSteps(m, rel)
    ensures Reflexive(m, rel)
  {
    forall s | Fits(m, s)
      ensures rel(s, s)
    {
      assert SameFlow(s, s);
    }
  }

  lemma BatchBodySteps(m: Model, rel: Relation, c: BlockId)
    requires Closed(m, rel) && CreateSteps(m, rel)
    requires Linked(m) && c < |m.blocks| && m.blocks[c].Create?
    ensures BodySteps(m, rel, BatchBody(m, c))
  {
    hide Closed, CreateSteps, Linked, Fits, GenerateOne;
    forall u: State | Fits(m, u)
      ensures rel(u, BatchBody(m, c)(u).0) && Fits(m, BatchBody(m, c)(u).0)
    {
      GenerateOneSteps(m, rel, u, c);
    }
  }

  lemma GenerateSteps(m: Model, rel: Relation, s: State, c: BlockId, n: nat)
    requires Closed(m, rel) && CreateSteps(m, rel)
    requires Linked(m) && Fits(m, s) && c < |m.blocks| && m.blocks[c].Create?
    ensures rel(s, Generate(m, s, c, n).0)
  {
    BatchBodySteps(m, rel, c);
    QuietIsReflexive(m, rel);
    PassesSteps(m, rel, BatchBody(m, c), s, n);
  }

  lemma ArrivalHandlingSteps(m: Model, rel: Relation, s: State, c: BlockId)
    requires Closed(m, rel) && CreateSteps(m, rel) && ArrivalSteps(m, rel, c)
    requires Linked(m) && Fits(m, s) && c < |m.blocks| && m.blocks[c].Create?
    ensures rel(s, HandleArrival(m, s, c))
  {
    var (n, rng) := m.blocks[c].batch(Look(s));
    PlainFits(m, s, s.(rng := rng));
    assert SameFlow(s, s.(rng := rng));
    GenerateSteps(m, rel, s.(rng := rng), c, n);
  }

  lemma CompletionHandlingSteps(m: Model, rel: Relation, s: State, d: BlockId, ref: EntityRef)
    requires Closed(m, rel) && LeaveSteps(m, rel, d)
    requires Linked(m) && Fits(m, s) && d < |m.blocks| && m.blocks[d].Delay? && ValidRef(s, ref)
    ensures rel(s, HandleCompletion(m, s, d, ref))
  {
    assert BlockLinked(m, d);
    Reach(m, s, m.blocks[d].next, ref);
    TransferSteps(m, rel, s, m.blocks[d].next, ref);
    var r := Enter(m, s, m.blocks[d].next, ref);
    if r.ok {
      WakeSteps(m, rel, LeaveDelay(m, r.st, d), m.blocks[d].waitQueues, m.top);
    } else {
      assert SameFlow(r.st, Halt(r.st, CannotLeave(d)));
    }
  }

  lemma TimeoutHandlingSteps(m: Model, rel: Relation, s: State, q: BlockId, ticket: nat)
    requires Closed(m, rel) && ExpirySteps(m, rel)
    requires Linked(m) && Fits(m, s) && IsQueue(m, q) && m.blocks[q].timeout.Some?
    ensures rel(s, HandleTimeout(m, s, q, ticket))
  {
    var ws := s.blocks[q].waiting;
    var i := Find(ws, ticket);
    if i.None? {
      assert SameFlow(s, s);
    } else {
      assert BlockLinked(m, q) && QueueFits(s, ws);
      var s1 := Expire(m, s, q, i.value);
      var next, ref := m.blocks[q].timeout.value.next, ws[i.value].ref;
      Reach(m, s1, next, ref);
      TransferSteps(m, rel, s1, next, ref);
      var r := Enter(m, s1, next, ref);
      assert SameFlow(r.st, Halt(r.st, CannotLeaveTimeout(q)));
    }
  }

  /** The handling of an event is a sequence of steps. */
  lemma HandlingSteps(m: Model, rel: Relation, s: State, a: Action)
    requires Closed(m, rel) && CreateSteps(m, rel) && ExpirySteps(m, rel)
    requires a.Arrival? ==> ArrivalSteps(m, rel, a.block)
    requires a.Completion? ==> LeaveSteps(m, rel, a.block)
    requires Linked(m) && Fits(m, s) && ActionFits(m, s, a)
    ensures rel(s, Handle(m, s, a))
  {
    match a
    case Arrival(c) => ArrivalHandlingSteps(m, rel, s, c);
    case Completion(d, ref) => CompletionHandlingSteps(m, rel, s, d, ref);
    case Timeout(q, ticket) => TimeoutHandlingSteps(m, rel, s, q, ticket);
  }
}
