/** Potentials that are sums: one term for each block, one for each pending event and one for
    pools and resources. Whether such a sum is a potential is decided move by move. */
module Tallies {
  import opened EventQueues
  import opened Sums
  import opened SimModel
  import opened Semantics
  import opened Potentials

  datatype Tally = Tally(
    block: (BlockId, BlockState) -> int, event: Event<Action> -> int, store: State -> int,
    weight: EntityRef -> int, unit: nat -> int, lenient: bool)

  function BlockTerms(t: Tally, bs: seq<BlockState>): nat -> int {
    (b: nat) => if b < |bs| then t.block(b, bs[b]) else 0
  }

  function ValueOf(t: Tally, s: State): int {
    SumTo(BlockTerms(t, s.blocks), |s.blocks|) + Sum(s.pending, t.event) + t.store(s)
  }

  function AsPotential(t: Tally): Potential {
    Potential((s: State) => ValueOf(t, s), t.weight, t.unit, t.lenient)
  }

  /** The part of the state that the store term may look at. */
  ghost predicate SameStore(s: State, s': State) {
    && s'.res == s.res && |s'.pools| == |s.pools|
    && forall t: nat ::
         t < |s.pools| ==> s'.pools[t].free == s.pools[t].free && |s'.pools[t].entities| == |s.pools[t].entities|
  }

  // The counters of a block after each of its moves.

  function Entered(x: BlockState): BlockState {
    x.(enterN := x.enterN + 1)
  }

  function Passed(x: BlockState): BlockState {
    x.(enterN := x.enterN + 1, exitN := x.exitN + 1)
  }

  function Occupied(x: BlockState): BlockState {
    x.(enterN := x.enterN + 1, busy := x.busy + 1, maxBusy := Max(x.busy + 1, x.maxBusy))
  }

  function Overflowed(x: BlockState): BlockState {
    x.(enterN := x.enterN + 1, dropN := x.dropN + 1)
  }

  function Pushed(x: BlockState, ref: EntityRef): BlockState {
    x.(enterN := x.enterN + 1, waiting := x.waiting + [Waiting(x.total, ref)],
       total := x.total + 1, maxLen := Max(|x.waiting| + 1, x.maxLen))
  }

  function Advanced(x: BlockState): BlockState
    requires x.waiting != []
  {
    x.(waiting := x.waiting[1..], exitN := x.exitN + 1)
  }

  function CompletionEvent(time: real, d: BlockId, ref: EntityRef): Event<Action> {
    Event(time, Run(Completion(d, ref)))
  }

  /** The moves of blocks other than QUEUE, one block at a time. */
  ghost predicate BlockBalance(m: Model, t: Tally) {
    && (forall b: nat, x: BlockState {:trigger t.block(b, Passed(x))} :: b < |m.blocks| && PassesThrough(m.blocks[b])
         ==> t.block(b, Passed(x)) == t.block(b, x))
    && (forall b: nat, x: BlockState, time: real, ref
          {:trigger t.block(b, Occupied(x)), t.event(CompletionEvent(time, b, ref))} ::
          b < |m.blocks| && m.blocks[b].Delay? ==>
            t.block(b, Occupied(x)) + t.event(CompletionEvent(time, b, ref)) == t.block(b, x) + t.weight(ref))
  }

  ghost predicate QueueBalance(m: Model, t: Tally) {
    && (forall b: nat, x: BlockState {:trigger t.block(b, Overflowed(x))} :: IsQueue(m, b)
         ==> t.block(b, Overflowed(x)) == t.block(b, x))
    && (forall b: nat, x: BlockState {:trigger t.block(b, Entered(x))} :: IsQueue(m, b) && !t.lenient
         ==> t.block(b, Entered(x)) == t.block(b, x))
    && (forall b: nat, x: BlockState, ref {:trigger t.block(b, Pushed(x, ref))} :: IsQueue(m, b)
         ==> t.block(b, Pushed(x, ref)) == t.block(b, x) + t.weight(ref))
    && (forall b: nat, x: BlockState {:trigger t.block(b, Advanced(x))} :: IsQueue(m, b) && x.waiting != []
         ==> t.block(b, Advanced(x)) == t.block(b, x) - t.weight(x.waiting[0].ref))
    && (forall b: nat, time: real, ticket: nat :: t.event(Event(time, Run(Timeout(b, ticket)))) == 0)
  }

  ghost predicate StoreBalance(m: Model, t: Tally) {
    && (forall s, s' :: SameStore(s, s') ==> t.store(s') == t.store(s))
    && (forall s, k: nat :: Fits(m, s) && k < |s.res| ==> t.store(GrabUnit(s, k)) == t.store(s) - t.unit(k))
    && (forall s, k: nat ::
         Fits(m, s) && k < |s.res| && s.res[k].busy > 0 ==> t.store(DropUnit(s, k)) == t.store(s) + t.unit(k))
    && (forall s, b: nat, k: nat ::
         Fits(m, s) && b < |m.blocks| && k < |s.res| ==> t.store(CountSeize(s, b, k)) == t.store(s) + t.unit(k))
    && (forall s, b: nat, k: nat ::
         Fits(m, s) && b < |m.blocks| && k < |s.res| ==> t.store(CountRelease(s, b, k)) == t.store(s) - t.unit(k))
    && (forall s: State, u: State, res {:trigger Resupplied(s, res), Resupplied(u, res)} :: s.res == u.res
         ==> t.store(Resupplied(s, res)) - t.store(s) == t.store(Resupplied(u, res)) - t.store(u))
    && (forall s, b: nat, x: BlockState, ref {:trigger t.block(b, Entered(x)), t.store(FreeEntity(m, s, ref))} ::
          Fits(m, s) && b < |m.blocks| && m.blocks[b].Terminate? && ValidRef(s, ref) ==>
            t.block(b, Entered(x)) + t.store(FreeEntity(m, s, ref)) == t.block(b, x) + t.store(s) + t.weight(ref))
  }

  ghost predicate Balanced(m: Model, t: Tally) {
    BlockBalance(m, t) && QueueBalance(m, t) && StoreBalance(m, t)
  }

  lemma WithTally(m: Model, t: Tally, s: State, b: BlockId, x: BlockState)
    requires StoreBalance(m, t) && b < |s.blocks|
    ensures ValueOf(t, With(s, b, x)) - ValueOf(t, s) == t.block(b, x) - t.block(b, s.blocks[b])
  {
    var s' := With(s, b, x);
    assert SameStore(s, s');
    SumToChange(BlockTerms(t, s.blocks), BlockTerms(t, s'.blocks), |s.blocks|, b);
  }

  lemma ScheduleTally(m: Model, t: Tally, s: State, d: real, a: Action)
    requires StoreBalance(m, t)
    ensures ValueOf(t, Schedule(s, d, a)) - ValueOf(t, s) == t.event(Event(s.clock + d, Run(a)))
  {
    assert SameStore(s, Schedule(s, d, a));
    SumSnoc(s.pending, Event(s.clock + d, Run(a)), t.event);
  }

  lemma FreeTally(m: Model, t: Tally, s: State, b: BlockId, ref: EntityRef)
    requires Fits(m, s) && StoreBalance(m, t) && ValidRef(s, ref)
    ensures ValueOf(t, FreeEntity(m, s, ref)) - ValueOf(t, s) == t.store(FreeEntity(m, s, ref)) - t.store(s)
  {
  }

  lemma TwoWiths(m: Model, t: Tally, s: State, b: BlockId, x: BlockState, y: BlockState)
    requires StoreBalance(m, t) && b < |s.blocks|
    ensures ValueOf(t, With(With(s, b, x), b, y)) - ValueOf(t, s) == t.block(b, y) - t.block(b, s.blocks[b])
  {
    WithTally(m, t, s, b, x);
    WithTally(m, t, With(s, b, x), b, y);
  }

  lemma OverflowTally(m: Model, t: Tally, s: State, b: BlockId)
    requires StoreBalance(m, t) && QueueBalance(m, t) && Fits(m, s) && IsQueue(m, b)
    ensures ValueOf(t, CountDrop(CountEnter(s, b), b)) == ValueOf(t, s)
  {
    var x := s.blocks[b];
    TwoWiths(m, t, s, b, Entered(x), Overflowed(x));
  }

  lemma PushTally(m: Model, t: Tally, s: State, b: BlockId, ref: EntityRef)
    requires StoreBalance(m, t) && QueueBalance(m, t) && Fits(m, s) && IsQueue(m, b)
    ensures ValueOf(t, Push(CountEnter(s, b), b, ref)) == ValueOf(t, s) + t.weight(ref)
  {
    var x := s.blocks[b];
    TwoWiths(m, t, s, b, Entered(x), Pushed(x, ref));
  }

  lemma AdvanceTally(m: Model, t: Tally, s: State, b: BlockId)
    requires StoreBalance(m, t) && QueueBalance(m, t) && Fits(m, s) && IsQueue(m, b) && s.blocks[b].waiting != []
    ensures ValueOf(t, CountExit(DeleteHead(s, b), b)) == ValueOf(t, s) - t.weight(s.blocks[b].waiting[0].ref)
  {
    var x := s.blocks[b];
    TwoWiths(m, t, s, b, x.(waiting := x.waiting[1..]), Advanced(x));
  }

  lemma QueueTallies(m: Model, t: Tally)
    requires StoreBalance(m, t) && QueueBalance(m, t)
    ensures QueueMoves(m, AsPotential(t))
  {
    var p := AsPotential(t);
    forall s, b: nat | Fits(m, s) && IsQueue(m, b)
      ensures p.value(CountDrop(CountEnter(s, b), b)) == p.value(s)
    {
      OverflowTally(m, t, s, b);
    }
    forall s, b: nat | Fits(m, s) && IsQueue(m, b) && !p.lenient
      ensures p.value(CountEnter(s, b)) == p.value(s)
    {
      WithTally(m, t, s, b, Entered(s.blocks[b]));
    }
    forall s, b: nat, ref | Fits(m, s) && IsQueue(m, b)
      ensures p.value(Push(CountEnter(s, b), b, ref)) == p.value(s) + p.weight(ref)
    {
      PushTally(m, t, s, b, ref);
    }
    forall s, d: real, b: nat, k: nat | Fits(m, s)
      ensures p.value(Schedule(s, d, Timeout(b, k))) == p.value(s)
    {
      ScheduleTally(m, t, s, d, Timeout(b, k));
    }
    forall s, b: nat | Fits(m, s) && IsQueue(m, b) && s.blocks[b].waiting != []
      ensures p.value(CountExit(DeleteHead(s, b), b)) == p.value(s) - p.weight(s.blocks[b].waiting[0].ref)
    {
      AdvanceTally(m, t, s, b);
    }
  }

  lemma UnitTally(m: Model, t: Tally, s: State, b: BlockId, k: nat)
    requires StoreBalance(m, t) && BlockBalance(m, t) && Fits(m, s)
    requires b < |m.blocks| && PassesThrough(m.blocks[b]) && k < |s.res|
    ensures ValueOf(t, CountSeize(s, b, k)) == ValueOf(t, s) + t.unit(k)
    ensures ValueOf(t, CountRelease(s, b, k)) == ValueOf(t, s) - t.unit(k)
  {
    PassTally(m, t, s, b);
    assert SameStore(s, CountPass(s, b));
  }

  lemma GrabTally(m: Model, t: Tally, s: State, k: nat)
    requires StoreBalance(m, t) && Fits(m, s) && k < |s.res|
    ensures ValueOf(t, GrabUnit(s, k)) == ValueOf(t, s) - t.unit(k)
    ensures s.res[k].busy > 0 ==> ValueOf(t, DropUnit(s, k)) == ValueOf(t, s) + t.unit(k)
  {
  }

  lemma ResupplyTally(m: Model, t: Tally, s: State, u: State, res: seq<ResourceState>)
    requires StoreBalance(m, t) && s.res == u.res
    ensures ValueOf(t, Resupplied(s, res)) - ValueOf(t, s) == ValueOf(t, Resupplied(u, res)) - ValueOf(t, u)
  {
  }

  lemma HoldTallies(m: Model, t: Tally)
    requires StoreBalance(m, t)
    ensures HoldMoves(m, AsPotential(t))
  {
    var p := AsPotential(t);
    forall s, k: nat | Fits(m, s) && k < |s.res|
      ensures p.value(GrabUnit(s, k)) == p.value(s) - p.unit(k)
      ensures s.res[k].busy > 0 ==> p.value(DropUnit(s, k)) == p.value(s) + p.unit(k)
    {
      GrabTally(m, t, s, k);
    }
  }

  lemma CountTallies(m: Model, t: Tally)
    requires StoreBalance(m, t) && BlockBalance(m, t)
    ensures CountMoves(m, AsPotential(t))
  {
    var p := AsPotential(t);
    forall s, b: nat, k: nat | Fits(m, s) && b < |m.blocks| && PassesThrough(m.blocks[b]) && k < |s.res|
      ensures p.value(CountSeize(s, b, k)) == p.value(s) + p.unit(k)
      ensures p.value(CountRelease(s, b, k)) == p.value(s) - p.unit(k)
    {
      UnitTally(m, t, s, b, k);
    }
  }

  lemma ResupplyTallies(m: Model, t: Tally)
    requires StoreBalance(m, t)
    ensures ResupplyMoves(AsPotential(t))
  {
    var p := AsPotential(t);
    forall s: State, u: State, res | s.res == u.res
      ensures p.value(Resupplied(s, res)) - p.value(s) == p.value(Resupplied(u, res)) - p.value(u)
    {
      ResupplyTally(m, t, s, u, res);
    }
  }

  lemma PassTally(m: Model, t: Tally, s: State, b: BlockId)
    requires StoreBalance(m, t) && BlockBalance(m, t) && Fits(m, s) && b < |m.blocks| && PassesThrough(m.blocks[b])
    ensures ValueOf(t, CountPass(s, b)) == ValueOf(t, s)
  {
    var x := s.blocks[b];
    WithTally(m, t, s, b, Passed(x));
  }

  lemma OccupyTally(m: Model, t: Tally, s: State, d: real, b: BlockId, ref: EntityRef)
    requires StoreBalance(m, t) && BlockBalance(m, t) && Fits(m, s) && b < |m.blocks| && m.blocks[b].Delay?
    ensures ValueOf(t, Schedule(Occupy(s, b), d, Completion(b, ref))) == ValueOf(t, s) + t.weight(ref)
  {
    var x := s.blocks[b];
    WithTally(m, t, s, b, Occupied(x));
    ScheduleTally(m, t, Occupy(s, b), d, Completion(b, ref));
    var e := CompletionEvent(s.clock + d, b, ref);
    assert t.block(b, Occupied(x)) + t.event(e) == t.block(b, x) + t.weight(ref);
  }

  lemma TerminateTally(m: Model, t: Tally, s: State, b: BlockId, ref: EntityRef)
    requires StoreBalance(m, t) && Fits(m, s) && b < |m.blocks| && m.blocks[b].Terminate? && ValidRef(s, ref)
    requires Fits(m, CountEnter(s, b))
    ensures ValueOf(t, FreeEntity(m, CountEnter(s, b), ref)) == ValueOf(t, s) + t.weight(ref)
  {
    var x := s.blocks[b];
    WithTally(m, t, s, b, Entered(x));
    assert SameStore(s, CountEnter(s, b));
    FreeTally(m, t, CountEnter(s, b), b, ref);
    assert SameStore(FreeEntity(m, s, ref), FreeEntity(m, CountEnter(s, b), ref));
  }

  lemma EntityTallies(m: Model, t: Tally)
    requires StoreBalance(m, t) && BlockBalance(m, t)
    ensures EntityMoves(m, AsPotential(t))
  {
    var p := AsPotential(t);
    forall s, s' | SameFlow(s, s')
      ensures p.value(s') == p.value(s)
    {
      assert SameStore(s, s');
    }
    forall s, b: nat | Fits(m, s) && b < |m.blocks| && PassesThrough(m.blocks[b])
      ensures p.value(CountPass(s, b)) == p.value(s)
    {
      PassTally(m, t, s, b);
    }
    forall s, d: real, b: nat, ref | Fits(m, s) && b < |m.blocks| && m.blocks[b].Delay?
      ensures p.value(Schedule(Occupy(s, b), d, Completion(b, ref))) == p.value(s) + p.weight(ref)
    {
      OccupyTally(m, t, s, d, b, ref);
    }
    forall s, b: nat, ref | Fits(m, s) && b < |m.blocks| && m.blocks[b].Terminate? && ValidRef(s, ref)
      && Fits(m, CountEnter(s, b))
      ensures p.value(FreeEntity(m, CountEnter(s, b), ref)) == p.value(s) + p.weight(ref)
    {
      TerminateTally(m, t, s, b, ref);
    }
  }

  lemma BalancedIsAdditive(m: Model, t: Tally)
    requires Balanced(m, t)
    ensures Additive(m, AsPotential(t))
  {
    QueueTallies(m, t);
    HoldTallies(m, t);
    CountTallies(m, t);
    ResupplyTallies(m, t);
    EntityTallies(m, t);
  }
}
