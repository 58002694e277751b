/** From transfers to events: what one turn of the run loop does to a potential, and which entity,
    if any, it leaves without a place. */
module Conservation {
  import opened Options
  import opened EventQueues
  import opened Sums
  import opened SimModel
  import opened Semantics
  import opened Potentials
  import opened Tallies

  // ---------- the entity left over by a turn ----------

  /** The entity in hand when a handler gives up: its transfer failed and it was not destroyed. */
  ghost function StrandedBy(m: Model, s: State, a: Action): Option<EntityRef>
    requires Linked(m) && Fits(m, s) && ActionFits(m, s, a)
  {
    match a
    case Arrival(c) =>
      var (n, rng) := m.blocks[c].batch(Look(s));
      PlainFits(m, s, s.(rng := rng));
      Generate(m, s.(rng := rng), c, n).1
    case Completion(d, ref) =>
      assert BlockLinked(m, d);
      Reach(m, s, m.blocks[d].next, ref);
      if Enter(m, s, m.blocks[d].next, ref).ok then None else Some(ref)
    case Timeout(q, ticket) =>
      var ws := s.blocks[q].waiting;
      var i := Find(ws, ticket);
      if i.None? then None
      else
        assert BlockLinked(m, q) && QueueFits(s, ws);
        var s1 := Expire(m, s, q, i.value);
        Reach(m, s1, m.blocks[q].timeout.value.next, ws[i.value].ref);
        if Enter(m, s1, m.blocks[q].timeout.value.next, ws[i.value].ref).ok then None else Some(ws[i.value].ref)
  }

  /** An entity is left over only by a turn that stops the simulation. */
  lemma StrandsOnlyIfStopped(m: Model, s: State, a: Action)
    requires Linked(m) && Fits(m, s) && ActionFits(m, s, a)
    ensures StrandedBy(m, s, a).Some? ==> Handle(m, s, a).stop
  {
  }

  // ---------- busy counters count pending completions ----------

  function CompletionAt(d: BlockId): Event<Action> -> int {
    (e: Event<Action>) => if e.handler.Run? && e.handler.action.Completion? && e.handler.action.block == d then 1 else 0
  }

  /** busy of DELAY d minus its pending completions. */
  function BusyTally(d: BlockId): Tally {
    Tally((b: BlockId, x: BlockState) => if b == d then x.busy else 0,
          (e: Event<Action>) => if e.handler.Run? && e.handler.action.Completion? && e.handler.action.block == d
            then -1 else 0,
          (s: State) => 0,
          (x: EntityRef) => 0, (k: nat) => 0, false)
  }

  lemma BusyIsBalanced(m: Model, d: BlockId)
    ensures Balanced(m, BusyTally(d))
  {
    var t := BusyTally(d);
    assert BlockBalance(m, t);
    assert QueueBalance(m, t);
    assert StoreBalance(m, t);
  }

  lemma {:induction false} NegatedSum(xs: seq<Event<Action>>, f: Event<Action> -> int, g: Event<Action> -> int)
    requires forall e :: g(e) == -f(e)
    ensures Sum(xs, g) == -Sum(xs, f)
  {
    if xs != [] {
      NegatedSum(xs[..|xs| - 1], f, g);
    }
  }

  /** A sum with a single nonzero term. */
  lemma {:induction false} SinglePoint(g: nat -> int, n: nat, b: nat)
    requires forall i: nat :: i < n && i != b ==> g(i) == 0
    ensures SumTo(g, n) == if b < n then g(b) else 0
  {
    if n > 0 {
      SinglePoint(g, n - 1, b);
    }
  }

  lemma BusyValue(d: BlockId, s: State)
    requires d < |s.blocks|
    ensures AsPotential(BusyTally(d)).value(s) == s.blocks[d].busy - Sum(s.pending, CompletionAt(d))
  {
    var t := BusyTally(d);
    SinglePoint(BlockTerms(t, s.blocks), |s.blocks|, d);
    NegatedSum(s.pending, CompletionAt(d), t.event);
  }

  /** Every DELAY is busy with exactly the entities whose completion is pending. */
  ghost predicate BusyMatches(m: Model, s: State)
    requires |s.blocks| == |m.blocks|
  {
    forall d: nat :: d < |m.blocks| && m.blocks[d].Delay? ==> s.blocks[d].busy == Sum(s.pending, CompletionAt(d))
  }

  // ---------- one turn of the run loop ----------

  /** How events leave: taken(a) goes with the event itself, the rest when the delay is left. */
  ghost predicate DelayEventMoves(m: Model, p: Potential, taken: Action -> int) {
    && (forall a: Action {:trigger taken(a)} :: !a.Completion? ==> taken(a) == 0)
    && (forall s, i: nat {:trigger Take(m, s, i)} :: Fits(m, s) && i < |s.pending|
         ==> p.value(Take(m, s, i)) == p.value(s) - taken(s.pending[i].handler.action))
    && (forall s, d: nat, ref {:trigger LeaveDelay(m, s, d), Completion(d, ref)} ::
         Fits(m, s) && d < |m.blocks| && m.blocks[d].Delay? && s.blocks[d].busy > 0
         ==> p.value(LeaveDelay(m, s, d)) == p.value(s) - (p.weight(ref) - taken(Completion(d, ref))))
    && (forall s, q: nat, i: nat {:trigger Expire(m, s, q, i)} ::
         Fits(m, s) && IsQueue(m, q) && i < |s.blocks[q].waiting|
         ==> p.value(Expire(m, s, q, i)) == p.value(s) - p.weight(s.blocks[q].waiting[i].ref))
  }

  /** How entities come into being and are destroyed by their CREATE. */
  ghost predicate CreateEventMoves(m: Model, p: Potential) {
    && (forall s, c: nat {:trigger Spawn(m, s, c)} :: Linked(m) && Fits(m, s) && c < |m.blocks| && m.blocks[c].Create?
         ==> p.value(Spawn(m, s, c).0) == p.value(s) - p.weight(Spawn(m, s, c).1))
    && (forall s, c: nat {:trigger CountExit(s, c)} ::
         Fits(m, s) && c < |m.blocks| && m.blocks[c].Create? ==> p.value(CountExit(s, c)) == p.value(s))
    && (forall s, c: nat, ref {:trigger FreeEntity(m, CountDrop(s, c), ref)} ::
         Fits(m, s) && c < |m.blocks| && m.blocks[c].Create? && ValidRef(s, ref) && Fits(m, CountDrop(s, c))
         ==> p.value(FreeEntity(m, CountDrop(s, c), ref)) == p.value(s) + p.weight(ref))
    && (forall s, c: nat, d: real {:trigger Schedule(s, d, Arrival(c))} ::
         Fits(m, s) ==> p.value(Schedule(s, d, Arrival(c))) == p.value(s))
  }

  ghost predicate EventMoves(m: Model, p: Potential, taken: Action -> int) {
    DelayEventMoves(m, p, taken) && CreateEventMoves(m, p)
  }

  function LossOf(p: Potential, taken: Action -> int, a: Action, stranded: Option<EntityRef>): int {
    if stranded.None? then 0 else if a.Completion? then taken(a) else p.weight(stranded.value)
  }

  /** The value after the turn, with the loss added back, is dw more than before. */
  ghost predicate Accounted(p: Potential, s: State, s': State, dw: int) {
    (p.lenient && s'.stop) || p.value(s') == p.value(s) + dw
  }

  lemma GenerateOneConserves(m: Model, p: Potential, taken: Action -> int, s: State, c: BlockId)
    requires Additive(m, p) && EventMoves(m, p, taken)
    requires Linked(m) && Fits(m, s) && c < |m.blocks| && m.blocks[c].Create?
    ensures var r := GenerateOne(m, s, c); Accounted(p, s, r.0, -LossOf(p, taken, Arrival(c), r.1))
  {
    assert BlockLinked(m, c);
    var (s1, ref) := Spawn(m, s, c);
    Reach(m, s1, m.blocks[c].next, ref);
    TransferAddsWeight(m, p, s1, m.blocks[c].next, ref);
    var r := Enter(m, s1, m.blocks[c].next, ref);
    CountFits(m, r.st, c);
    assert SameFlow(r.st, Halt(r.st, CannotLeave(c)));
  }

  lemma {:induction false} PassesConserve(p: Potential, taken: Action -> int, c: BlockId,
                                          body: State -> (State, Option<EntityRef>), s: State, n: nat)
    requires forall u: State {:trigger body(u)} :: Accounted(p, u, body(u).0, -LossOf(p, taken, Arrival(c), body(u).1))
    requires forall u: State {:trigger body(u)} :: u.stop ==> body(u).0.stop
    ensures var r := Passes(body, s, n); Accounted(p, s, r.0, -LossOf(p, taken, Arrival(c), r.1))
    ensures s.stop ==> Passes(body, s, n).0.stop
    decreases n
  {
    if n > 0 && body(s).1.None? {
      PassesConserve(p, taken, c, body, body(s).0, n - 1);
    }
  }

  lemma GenerateConserves(m: Model, p: Potential, taken: Action -> int, s: State, c: BlockId, n: nat)
    requires Additive(m, p) && EventMoves(m, p, taken)
    requires Linked(m) && Fits(m, s) && c < |m.blocks| && m.blocks[c].Create?
    ensures var r := Generate(m, s, c, n); Accounted(p, s, r.0, -LossOf(p, taken, Arrival(c), r.1))
  {
    var body := BatchBody(m, c);
    forall u
      ensures Accounted(p, u, body(u).0, -LossOf(p, taken, Arrival(c), body(u).1))
    {
      if Fits(m, u) {
        GenerateOneConserves(m, p, taken, u, c);
      }
    }
    PassesConserve(p, taken, c, body, s, n);
  }

  lemma ArrivalConserves(m: Model, p: Potential, taken: Action -> int, s: State, c: BlockId)
    requires Additive(m, p) && EventMoves(m, p, taken)
    requires Linked(m) && Fits(m, s) && c < |m.blocks| && m.blocks[c].Create?
    ensures Accounted(p, s, HandleArrival(m, s, c), -LossOf(p, taken, Arrival(c), StrandedBy(m, s, Arrival(c))))
  {
    var (n, rng) := m.blocks[c].batch(Look(s));
    PlainFits(m, s, s.(rng := rng));
    assert SameFlow(s, s.(rng := rng));
    GenerateConserves(m, p, taken, s.(rng := rng), c, n);
    var s1 := Generate(m, s.(rng := rng), c, n).0;
    if !s1.stop {
      ArrivalIsFree(m, p, taken, s1, c);
    }
  }

  lemma ArrivalIsFree(m: Model, p: Potential, taken: Action -> int, s: State, c: BlockId)
    requires Additive(m, p) && EventMoves(m, p, taken)
    requires Linked(m) && Fits(m, s) && c < |m.blocks| && m.blocks[c].Create?
    ensures p.value(ScheduleArrival(m, s, c)) == p.value(s)
  {
    var (interval, rng) := m.blocks[c].interval(Look(s));
    PlainFits(m, s, s.(rng := rng));
    assert SameFlow(s, s.(rng := rng));
  }

  lemma TimeoutConserves(m: Model, p: Potential, taken: Action -> int, s: State, q: BlockId, ticket: nat)
    requires Additive(m, p) && EventMoves(m, p, taken)
    requires Linked(m) && Fits(m, s) && IsQueue(m, q) && m.blocks[q].timeout.Some?
    ensures Accounted(p, s, HandleTimeout(m, s, q, ticket),
                      -LossOf(p, taken, Timeout(q, ticket), StrandedBy(m, s, Timeout(q, ticket))))
  {
    var ws := s.blocks[q].waiting;
    var i := Find(ws, ticket);
    if i.Some? {
      assert BlockLinked(m, q) && QueueFits(s, ws);
      var s1 := Expire(m, s, q, i.value);
      var ref := ws[i.value].ref;
      Reach(m, s1, m.blocks[q].timeout.value.next, ref);
      TransferAddsWeight(m, p, s1, m.blocks[q].timeout.value.next, ref);
      var r := Enter(m, s1, m.blocks[q].timeout.value.next, ref);
      assert SameFlow(r.st, Halt(r.st, CannotLeaveTimeout(q)));
    }
  }

  /** A completing entity was counted busy, and still is after its transfer. */
  lemma {:induction false} StillBusy(m: Model, s: State, i: nat)
    requires Linked(m) && Fits(m, s) && BusyMatches(m, s) && i < |s.pending| && s.pending[i].handler.action.Completion?
    requires EventFits(m, s, s.pending[i])
    ensures var d, ref := s.pending[i].handler.action.block, s.pending[i].handler.action.ref;
            var s1 := Take(m, s, i);
            Ready(m, s1, m.blocks[d].next, ref) && Enter(m, s1, m.blocks[d].next, ref).st.blocks[d].busy > 0
  {
    var d, ref := s.pending[i].handler.action.block, s.pending[i].handler.action.ref;
    var s1 := Take(m, s, i);
    SumRemoveAt(s.pending, i, CompletionAt(d));
    assert BlockLinked(m, d);
    Reach(m, s1, m.blocks[d].next, ref);
    BusyIsBalanced(m, d);
    BalancedIsAdditive(m, BusyTally(d));
    var p := AsPotential(BusyTally(d));
    BusyValue(d, s1);
    assert p.value(s1) == 1;
    TransferAddsWeight(m, p, s1, m.blocks[d].next, ref);
    var s2 := Enter(m, s1, m.blocks[d].next, ref).st;
    BusyValue(d, s2);
    SumNonNegative(s2.pending, CompletionAt(d));
  }

  lemma CompletionConserves(m: Model, p: Potential, taken: Action -> int, s: State, i: nat)
    requires Additive(m, p) && EventMoves(m, p, taken)
    requires Linked(m) && Fits(m, s) && BusyMatches(m, s) && i < |s.pending| && s.pending[i].handler.action.Completion?
    requires EventFits(m, s, s.pending[i])
    ensures var a, s1 := s.pending[i].handler.action, Take(m, s, i);
            Accounted(p, s, Handle(m, s1, a), -LossOf(p, taken, a, StrandedBy(m, s1, a)))
  {
    var d, ref := s.pending[i].handler.action.block, s.pending[i].handler.action.ref;
    var s1 := Take(m, s, i);
    StillBusy(m, s, i);
    assert BlockLinked(m, d);
    TransferAddsWeight(m, p, s1, m.blocks[d].next, ref);
    var r := Enter(m, s1, m.blocks[d].next, ref);
    if r.ok {
      var s2 := LeaveDelay(m, r.st, d);
      WakeKeepsPotential(m, p, s2, m.blocks[d].waitQueues, m.top);
    } else {
      assert SameFlow(r.st, Halt(r.st, CannotLeave(d)));
    }
  }

  /** One turn changes a potential by nothing but the loss of the stranded entity. */
  lemma TurnConserves(m: Model, p: Potential, taken: Action -> int, s: State, i: nat)
    requires Additive(m, p) && EventMoves(m, p, taken)
    requires Linked(m) && Fits(m, s) && BusyMatches(m, s) && i < |s.pending|
    requires EventFits(m, s, s.pending[i])
    ensures var a, s1 := s.pending[i].handler.action, Take(m, s, i);
            Accounted(p, s, Step(m, s, i), -LossOf(p, taken, a, StrandedBy(m, s1, a)))
  {
    var a, s1 := s.pending[i].handler.action, Take(m, s, i);
    match a {
      case Arrival(c) => ArrivalConserves(m, p, taken, s1, c);
      case Timeout(q, t) => TimeoutConserves(m, p, taken, s1, q, t);
      case Completion(_, _) => CompletionConserves(m, p, taken, s, i);
    }
    var s2 := Handle(m, s1, a);
    assert SameFlow(s2, CheckStopRule(m, s2));
  }

  // ---------- event moves of a tally ----------

  function LeftDelay(x: BlockState): BlockState
    requires x.busy > 0
  {
    x.(exitN := x.exitN + 1, busy := x.busy - 1)
  }

  function Expired(x: BlockState, i: nat): BlockState
    requires i < |x.waiting|
  {
    x.(waiting := RemoveAt(x.waiting, i), timeoutN := x.timeoutN + 1)
  }

  function Created(x: BlockState): BlockState {
    x.(createdN := x.createdN + 1)
  }

  function Exited(x: BlockState): BlockState {
    x.(exitN := x.exitN + 1)
  }

  function Dropped(x: BlockState): BlockState {
    x.(dropN := x.dropN + 1)
  }

  ghost predicate DelayEventBalance(m: Model, t: Tally, taken: Action -> int) {
    && (forall a: Action :: !a.Completion? ==> taken(a) == 0)
    && (forall e: Event<Action> :: e.handler.Run? ==> t.event(e) == taken(e.handler.action))
    && (forall d: nat, x: BlockState, ref {:trigger t.block(d, LeftDelay(x)), taken(Completion(d, ref))} ::
          d < |m.blocks| && m.blocks[d].Delay? && x.busy > 0 ==>
            t.block(d, LeftDelay(x)) == t.block(d, x) - (t.weight(ref) - taken(Completion(d, ref))))
    && (forall q: nat, x: BlockState, i: nat {:trigger t.block(q, Expired(x, i))} ::
         IsQueue(m, q) && i < |x.waiting| ==>
            t.block(q, Expired(x, i)) == t.block(q, x) - t.weight(x.waiting[i].ref))
  }

  ghost predicate CreateEventBalance(m: Model, t: Tally) {
    && (forall s, c: nat, x: BlockState {:trigger t.block(c, Created(x)), Spawn(m, s, c)} ::
          Linked(m) && Fits(m, s) && c < |m.blocks| && m.blocks[c].Create? ==>
            t.block(c, Created(x)) - t.block(c, x) + t.store(Spawn(m, s, c).0) - t.store(s)
              == -t.weight(Spawn(m, s, c).1))
    && (forall c: nat, x: BlockState {:trigger t.block(c, Exited(x))} :: c < |m.blocks| && m.blocks[c].Create? ==>
            t.block(c, Exited(x)) == t.block(c, x))
    && (forall s, c: nat, x: BlockState, ref {:trigger t.block(c, Dropped(x)), FreeEntity(m, s, ref)} ::
          Fits(m, s) && c < |m.blocks| && m.blocks[c].Create? && ValidRef(s, ref) ==>
            t.block(c, Dropped(x)) - t.block(c, x) + t.store(FreeEntity(m, s, ref)) - t.store(s) == t.weight(ref))
  }

  lemma TakeTally(m: Model, t: Tally, taken: Action -> int, s: State, i: nat)
    requires StoreBalance(m, t) && DelayEventBalance(m, t, taken) && Fits(m, s) && i < |s.pending|
    ensures ValueOf(t, Take(m, s, i)) == ValueOf(t, s) - taken(s.pending[i].handler.action)
  {
    assert EventFits(m, s, s.pending[i]);
    assert SameStore(s, Take(m, s, i));
    SumRemoveAt(s.pending, i, t.event);
  }

  lemma LeaveTally(m: Model, t: Tally, taken: Action -> int, s: State, d: BlockId, ref: EntityRef)
    requires StoreBalance(m, t) && DelayEventBalance(m, t, taken)
    requires Fits(m, s) && d < |m.blocks| && m.blocks[d].Delay? && s.blocks[d].busy > 0
    ensures ValueOf(t, LeaveDelay(m, s, d)) == ValueOf(t, s) - (t.weight(ref) - taken(Completion(d, ref)))
  {
    WithTally(m, t, s, d, LeftDelay(s.blocks[d]));
  }

  lemma ExpireTally(m: Model, t: Tally, taken: Action -> int, s: State, q: BlockId, i: nat)
    requires StoreBalance(m, t) && DelayEventBalance(m, t, taken)
    requires Fits(m, s) && IsQueue(m, q) && i < |s.blocks[q].waiting|
    ensures ValueOf(t, Expire(m, s, q, i)) == ValueOf(t, s) - t.weight(s.blocks[q].waiting[i].ref)
  {
    WithTally(m, t, s, q, Expired(s.blocks[q], i));
  }

  lemma SpawnTally(m: Model, t: Tally, s: State, c: BlockId)
    requires StoreBalance(m, t) && CreateEventBalance(m, t)
    requires Linked(m) && Fits(m, s) && c < |m.blocks| && m.blocks[c].Create?
    ensures ValueOf(t, Spawn(m, s, c).0) == ValueOf(t, s) - t.weight(Spawn(m, s, c).1)
  {
    var s' := Spawn(m, s, c).0;
    SumToChange(BlockTerms(t, s.blocks), BlockTerms(t, s'.blocks), |s.blocks|, c);
    assert s'.blocks[c] == Created(s.blocks[c]);
  }

  lemma DiscardTally(m: Model, t: Tally, s: State, c: BlockId, ref: EntityRef)
    requires StoreBalance(m, t) && CreateEventBalance(m, t)
    requires Fits(m, s) && c < |m.blocks| && m.blocks[c].Create? && ValidRef(s, ref) && Fits(m, CountDrop(s, c))
    ensures ValueOf(t, FreeEntity(m, CountDrop(s, c), ref)) == ValueOf(t, s) + t.weight(ref)
  {
    WithTally(m, t, s, c, Dropped(s.blocks[c]));
    assert SameStore(s, CountDrop(s, c));
    FreeTally(m, t, CountDrop(s, c), c, ref);
    assert SameStore(FreeEntity(m, s, ref), FreeEntity(m, CountDrop(s, c), ref));
    assert t.block(c, Dropped(s.blocks[c])) - t.block(c, s.blocks[c]) + t.store(FreeEntity(m, s, ref)) - t.store(s)
      == t.weight(ref);
  }

  lemma DelayEventTallies(m: Model, t: Tally, taken: Action -> int)
    requires StoreBalance(m, t) && DelayEventBalance(m, t, taken)
    ensures DelayEventMoves(m, AsPotential(t), taken)
  {
    var p := AsPotential(t);
    forall s, i: nat | Fits(m, s) && i < |s.pending|
      ensures p.value(Take(m, s, i)) == p.value(s) - taken(s.pending[i].handler.action)
    {
      TakeTally(m, t, taken, s, i);
    }
    forall s, d: nat, ref | Fits(m, s) && d < |m.blocks| && m.blocks[d].Delay? && s.blocks[d].busy > 0
      ensures p.value(LeaveDelay(m, s, d)) == p.value(s) - (p.weight(ref) - taken(Completion(d, ref)))
    {
      LeaveTally(m, t, taken, s, d, ref);
    }
    forall s, q: nat, i: nat | Fits(m, s) && IsQueue(m, q) && i < |s.blocks[q].waiting|
      ensures p.value(Expire(m, s, q, i)) == p.value(s) - p.weight(s.blocks[q].waiting[i].ref)
    {
      ExpireTally(m, t, taken, s, q, i);
    }
  }

  lemma CreateEventTallies(m: Model, t: Tally, taken: Action -> int)
    requires StoreBalance(m, t) && DelayEventBalance(m, t, taken) && CreateEventBalance(m, t)
    ensures CreateEventMoves(m, AsPotential(t))
  {
    var p := AsPotential(t);
    forall s, c: nat | Linked(m) && Fits(m, s) && c < |m.blocks| && m.blocks[c].Create?
      ensures p.value(Spawn(m, s, c).0) == p.value(s) - p.weight(Spawn(m, s, c).1)
    {
      SpawnTally(m, t, s, c);
    }
    forall s, c: nat | Fits(m, s) && c < |m.blocks| && m.blocks[c].Create?
      ensures p.value(CountExit(s, c)) == p.value(s)
    {
      WithTally(m, t, s, c, Exited(s.blocks[c]));
    }
    forall s, c: nat, ref | Fits(m, s) && c < |m.blocks| && m.blocks[c].Create? && ValidRef(s, ref)
      && Fits(m, CountDrop(s, c))
      ensures p.value(FreeEntity(m, CountDrop(s, c), ref)) == p.value(s) + p.weight(ref)
    {
      DiscardTally(m, t, s, c, ref);
    }
    forall s, c: nat, d: real | Fits(m, s)
      ensures p.value(Schedule(s, d, Arrival(c))) == p.value(s)
    {
      ScheduleTally(m, t, s, d, Arrival(c));
    }
  }
}
