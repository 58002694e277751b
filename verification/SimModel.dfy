/** A linked simulation model (the block graph the generator compiles) and the state of the
    program it emits. */
module SimModel {
  import opened Options
  import opened EventQueues

  type BlockId = nat

  datatype Value = Float(r: real) | Int(i: int) | Uint(n: nat) | Bool(b: bool)

  /** typ 0 is the null entity type; type t lives in pool number t - 1. */
  datatype EntityRef = EntityRef(typ: nat, idx: nat)

  const NULL_REF := EntityRef(0, 0xFFFF_FFFF)

  // ---------- state ----------

  /** What a scheduled closure does when its event is handled. */
  datatype Action =
    | Arrival(block: BlockId)
    | Completion(block: BlockId, ref: EntityRef)
    | Timeout(block: BlockId, ticket: nat)

  datatype Waiting = Waiting(ticket: nat, ref: EntityRef)

  /** Fields of every emitted block struct; those a block kind lacks stay at their initial value. */
  datatype BlockState = BlockState(
    createdN: nat, enterN: nat, exitN: nat, dropN: nat, timeoutN: nat,
    busy: nat, maxBusy: nat,
    waiting: seq<Waiting>, total: nat, maxLen: nat)

  const FRESH_BLOCK := BlockState(0, 0, 0, 0, 0, 0, 0, [], 0, 0)

  datatype ResourceState = ResourceState(capacity: nat, busy: nat, maxBusy: nat, seizeN: nat, releaseN: nat)

  type Record = seq<Value>

  datatype PoolState = PoolState(entities: seq<Record>, free: seq<nat>)

  datatype StopReason =
    | NotStopped
    | StopRuleMet
    | EmptyEventQueue
    | UnknownEntityType
    | CannotLeave(block: BlockId)
    | CannotLeaveTimeout(block: BlockId)
    | NoBranchMatched(block: BlockId)
    | ReleaseOfIdleResource(block: BlockId)
    | WrongEntityForTimeout(block: BlockId)
    | WrongEntityForDuration(block: BlockId)

  /** rng is the position in the random stream; pending lists the events not yet handled, in
      the order in which they were scheduled. */
  datatype State = State(
    clock: real, stop: bool, reason: StopReason, rng: nat,
    vars: seq<Value>, pools: seq<PoolState>, res: seq<ResourceState>,
    blocks: seq<BlockState>, pending: seq<Event<Action>>)

  // ---------- model ----------

  /** The counters of a block that an expression can name. */
  datatype Metrics = Metrics(
    createdN: nat, enterN: nat, exitN: nat, dropN: nat, timeoutN: nat,
    busy: nat, maxBusy: nat, len: nat, maxLen: nat)

  /** What an expression can look at: not who waits, nor what is pending. */
  datatype View = View(
    clock: real, rng: nat, vars: seq<Value>, entities: seq<seq<Record>>, res: seq<ResourceState>, metrics: seq<Metrics>)

  function MetricsOf(x: BlockState): Metrics {
    Metrics(x.createdN, x.enterN, x.exitN, x.dropN, x.timeoutN, x.busy, x.maxBusy, |x.waiting|, x.maxLen)
  }

  function Look(s: State): View {
    View(s.clock, s.rng, s.vars,
         seq(|s.pools|, (t: nat) requires t < |s.pools| => s.pools[t].entities),
         s.res,
         seq(|s.blocks|, (b: nat) requires b < |s.blocks| => MetricsOf(s.blocks[b])))
  }

  /** An expression without entity fields: its value and the stream position after its draws. */
  type GlobalExpr<T> = View -> (T, nat)

  /** An expression evaluated for an entity; entity is the type whose fields it reads, if any. */
  datatype Expr<T> = Expr(entity: Option<nat>, eval: (View, EntityRef) -> (T, nat))

  datatype Target = Field(entity: nat, field: nat) | Var(index: nat)

  datatype Assignment = Assignment(target: Target, expr: Expr<Value>)

  datatype Condition = IsEntity(entity: nat) | Test(expr: Expr<bool>)

  datatype Case = Case(condition: Condition, next: BlockId)

  datatype TimeoutParams = TimeoutParams(delay: Expr<real>, next: BlockId)

  datatype Block =
    | Create(entity: nat, interval: GlobalExpr<real>, immediately: bool, batch: GlobalExpr<nat>,
             destroy: bool, next: BlockId)
    | Queue(capacity: Option<GlobalExpr<nat>>, timeout: Option<TimeoutParams>, overflow: Option<BlockId>, next: BlockId)
    | Delay(duration: Expr<real>, capacity: Option<GlobalExpr<nat>>, waitQueues: seq<BlockId>, next: BlockId)
    | Seize(resource: nat, waitQueues: seq<BlockId>, next: BlockId)
    | Release(resource: nat, next: BlockId)
    | Assign(assignments: seq<Assignment>, next: BlockId)
    | Branch(cases: seq<Case>, orElse: Option<BlockId>)
    | Terminate

  datatype EntityDesc = EntityDesc(zero: Record, defaults: Record)

  /** seizes lists the SEIZE blocks of the resource in declaration order. */
  datatype ResourceDesc = ResourceDesc(capacity: nat, seizes: seq<BlockId>)

  /** rank and top number the immediate-transfer graph so that every synchronous call goes down;
      they exist exactly when that graph is acyclic, and are not part of the emitted program. */
  datatype Model = Model(
    entities: seq<EntityDesc>, vars: seq<Value>, resources: seq<ResourceDesc>, blocks: seq<Block>,
    stopRule: Option<View -> bool>,
    rank: seq<nat>, top: nat)

  /** A block that an entity can be handed to: a CREATE takes no entity. */
  predicate IsTarget(m: Model, b: BlockId) {
    b < |m.blocks| && !m.blocks[b].Create?
  }

  predicate IsQueue(m: Model, b: BlockId) {
    b < |m.blocks| && m.blocks[b].Queue?
  }

  predicate Below(m: Model, b: BlockId, a: BlockId)
    requires |m.rank| == |m.blocks|
  {
    b < |m.blocks| && a < |m.blocks| && m.rank[b] < m.rank[a]
  }

  /** The wait queues woken by a RELEASE: those of the resource's SEIZE blocks, in order. */
  function WakeList(m: Model, seizes: seq<BlockId>): seq<BlockId> {
    if seizes == [] then []
    else
      (if seizes[0] < |m.blocks| && m.blocks[seizes[0]].Seize? then m.blocks[seizes[0]].waitQueues else [])
      + WakeList(m, seizes[1..])
  }

  predicate TargetFits(m: Model, t: Target) {
    match t
    case Field(entity, field) => 1 <= entity <= |m.entities| && field < |m.entities[entity - 1].zero|
    case Var(index) => index < |m.vars|
  }

  ghost predicate BlockLinked(m: Model, a: BlockId)
    requires |m.rank| == |m.blocks| && a < |m.blocks|
  {
    match m.blocks[a]
    case Create(entity, _, _, _, _, next) =>
      1 <= entity <= |m.entities| && IsTarget(m, next)
    case Queue(_, timeout, overflow, next) =>
      && IsTarget(m, next) && Below(m, next, a)
      && (timeout.Some? ==> IsTarget(m, timeout.value.next))
      && (overflow.Some? ==> IsTarget(m, overflow.value) && Below(m, overflow.value, a))
    case Delay(_, _, waitQueues, next) =>
      && IsTarget(m, next)
      && forall q <- waitQueues :: IsQueue(m, q)
    case Seize(resource, _, next) =>
      resource < |m.resources| && IsTarget(m, next) && Below(m, next, a)
    case Release(resource, next) =>
      && resource < |m.resources| && IsTarget(m, next) && Below(m, next, a)
      && forall q <- WakeList(m, m.resources[resource].seizes) :: IsQueue(m, q) && Below(m, q, a)
    case Assign(assignments, next) =>
      && IsTarget(m, next) && Below(m, next, a)
      && forall x <- assignments :: TargetFits(m, x.target)
    case Branch(cases, orElse) =>
      && (forall c <- cases :: IsTarget(m, c.next) && Below(m, c.next, a))
      && (orElse.Some? ==> IsTarget(m, orElse.value) && Below(m, orElse.value, a))
    case Terminate => true
  }

  /** What linking, type checking of the emitted program and acyclicity guarantee. */
  ghost predicate Linked(m: Model) {
    && |m.rank| == |m.blocks|
    && (forall a: nat :: a < |m.rank| ==> m.rank[a] < m.top)
    && (forall t: nat :: t < |m.entities| ==> |m.entities[t].zero| == |m.entities[t].defaults|)
    && (forall a: nat :: a < |m.blocks| ==> BlockLinked(m, a))
  }

  // ---------- well-formed states ----------

  predicate ValidRef(s: State, ref: EntityRef) {
    1 <= ref.typ <= |s.pools| && ref.idx < |s.pools[ref.typ - 1].entities|
  }

  predicate ActionFits(m: Model, s: State, a: Action) {
    && a.block < |m.blocks|
    && match a
       case Arrival(c) => m.blocks[c].Create?
       case Completion(d, ref) => m.blocks[d].Delay? && ValidRef(s, ref)
       case Timeout(q, ticket) => m.blocks[q].Queue? && m.blocks[q].timeout.Some?
  }

  predicate EventFits(m: Model, s: State, e: Event<Action>) {
    e.handler.Run? && ActionFits(m, s, e.handler.action)
  }

  ghost predicate PoolFits(desc: EntityDesc, p: PoolState) {
    && (forall i: nat :: i < |p.entities| ==> |p.entities[i]| == |desc.zero|)
    && (forall i: nat :: i < |p.free| ==> p.free[i] < |p.entities|)
  }

  ghost predicate QueueFits(s: State, ws: seq<Waiting>) {
    forall i: nat :: i < |ws| ==> ValidRef(s, ws[i].ref)
  }

  ghost predicate Fits(m: Model, s: State) {
    && |s.blocks| == |m.blocks| && |s.pools| == |m.entities|
    && |s.res| == |m.resources| && |s.vars| == |m.vars|
    && (forall t: nat :: t < |s.pools| ==> PoolFits(m.entities[t], s.pools[t]))
    && (forall b: nat :: b < |s.blocks| ==> QueueFits(s, s.blocks[b].waiting))
    && (forall i: nat :: i < |s.pending| ==> EventFits(m, s, s.pending[i]))
  }

  /** Same entity slots: references mean the same in both states. */
  ghost predicate SameSlots(s: State, s': State) {
    && |s'.pools| == |s.pools|
    && forall t: nat :: t < |s.pools| ==> |s'.pools[t].entities| == |s.pools[t].entities|
  }
}
