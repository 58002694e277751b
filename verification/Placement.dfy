/** Where entities are. At every event boundary each slot of each pool is in exactly one place:
    once on its free list, or waiting in one queue, or travelling in one pending completion. */
module Placement {
  import opened Options
  import opened EventQueues
  import opened Sums
  import opened SimModel
  import opened Semantics
  import opened Tallies
  import opened Conservation
  import opened Runs

  function WaitingAs(r: EntityRef): Waiting -> int {
    (w: Waiting) => if w.ref == r then 1 else 0
  }

  function CompletionOf(r: EntityRef): Event<Action> -> int {
    (e: Event<Action>) => if e.handler.Run? && e.handler.action.Completion? && e.handler.action.ref == r then 1 else 0
  }

  function FreeCount(s: State, r: EntityRef): int {
    if 1 <= r.typ <= |s.pools| then multiset(s.pools[r.typ - 1].free)[r.idx] else 0
  }

  function WaitingCounts(s: State, r: EntityRef): nat -> int {
    (b: nat) => if b < |s.blocks| then Sum(s.blocks[b].waiting, WaitingAs(r)) else 0
  }

  /** The number of places in which r is found. */
  function Places(s: State, r: EntityRef): int {
    FreeCount(s, r) + SumTo(WaitingCounts(s, r), |s.blocks|) + Sum(s.pending, CompletionOf(r))
  }

  ghost predicate EachPlacedOnce(s: State) {
    forall r {:trigger Places(s, r)} :: Places(s, r) == if ValidRef(s, r) then 1 else 0
  }

  /** Every slot is placed once, except that the entity in hand, if any, is nowhere. */
  ghost predicate EachPlacedOnceBut(s: State, hand: Option<EntityRef>) {
    forall r {:trigger Places(s, r)} ::
      Places(s, r) == (if ValidRef(s, r) then 1 else 0) - (if hand == Some(r) then 1 else 0)
  }

  /** The places of r less the one it should have. */
  function PlaceTally(r: EntityRef): Tally {
    Tally((b: BlockId, x: BlockState) => Sum(x.waiting, WaitingAs(r)),
          CompletionOf(r),
          (s: State) => FreeCount(s, r) - (if ValidRef(s, r) then 1 else 0),
          (x: EntityRef) => if x == r then 1 else 0,
          (k: nat) => 0, false)
  }

  function PlaceTaken(r: EntityRef): Action -> int {
    (a: Action) => if a.Completion? && a.ref == r then 1 else 0
  }

  lemma PlaceValue(s: State, r: EntityRef)
    ensures ValueOf(PlaceTally(r), s) == Places(s, r) - (if ValidRef(s, r) then 1 else 0)
  {
    SumToSame(BlockTerms(PlaceTally(r), s.blocks), WaitingCounts(s, r), |s.blocks|);
  }

  // ---------- every move keeps the tally ----------

  lemma PlaceBlockBalance(m: Model, r: EntityRef)
    ensures BlockBalance(m, PlaceTally(r))
  {
  }

  lemma PlaceQueueBalance(m: Model, r: EntityRef)
    ensures QueueBalance(m, PlaceTally(r))
  {
    var t := PlaceTally(r);
    forall b: nat, x: BlockState, ref | IsQueue(m, b)
      ensures t.block(b, Pushed(x, ref)) == t.block(b, x) + t.weight(ref)
    {
      SumSnoc(x.waiting, Waiting(x.total, ref), WaitingAs(r));
    }
    forall b: nat, x: BlockState | IsQueue(m, b) && x.waiting != []
      ensures t.block(b, Advanced(x)) == t.block(b, x) - t.weight(x.waiting[0].ref)
    {
      SumRemoveAt(x.waiting, 0, WaitingAs(r));
      assert RemoveAt(x.waiting, 0) == x.waiting[1..];
    }
  }

  lemma FreedCount(m: Model, s: State, r: EntityRef, ref: EntityRef)
    requires Fits(m, s) && ValidRef(s, ref)
    ensures FreeCount(FreeEntity(m, s, ref), r) == FreeCount(s, r) + if ref == r then 1 else 0
    ensures ValidRef(FreeEntity(m, s, ref), r) == ValidRef(s, r)
  {
    var p := s.pools[ref.typ - 1];
    var p' := FreeEntity(m, s, ref).pools[ref.typ - 1];
    assert p'.free == p.free + [ref.idx];
    assert multiset(p'.free) == multiset(p.free) + multiset{ref.idx};
  }

  lemma SameStoreCounts(s: State, s': State, r: EntityRef)
    requires SameStore(s, s')
    ensures FreeCount(s', r) == FreeCount(s, r) && ValidRef(s', r) == ValidRef(s, r)
  {
  }

  lemma PlaceStoreBalance(m: Model, r: EntityRef)
    ensures StoreBalance(m, PlaceTally(r))
  {
    var t := PlaceTally(r);
    forall s, s' | SameStore(s, s')
      ensures t.store(s') == t.store(s)
    {
      SameStoreCounts(s, s', r);
    }
    forall s, b: nat, x: BlockState, ref | Fits(m, s) && b < |m.blocks| && m.blocks[b].Terminate? && ValidRef(s, ref)
      ensures t.block(b, Entered(x)) + t.store(FreeEntity(m, s, ref)) == t.block(b, x) + t.store(s) + t.weight(ref)
    {
      FreedCount(m, s, r, ref);
    }
  }

  lemma PlaceDelayBalance(m: Model, r: EntityRef)
    ensures DelayEventBalance(m, PlaceTally(r), PlaceTaken(r))
  {
    var t := PlaceTally(r);
    forall q: nat, x: BlockState, i: nat | IsQueue(m, q) && i < |x.waiting|
      ensures t.block(q, Expired(x, i)) == t.block(q, x) - t.weight(x.waiting[i].ref)
    {
      SumRemoveAt(x.waiting, i, WaitingAs(r));
    }
  }

  lemma SpawnCount(m: Model, s: State, c: BlockId, r: EntityRef)
    requires Linked(m) && Fits(m, s) && c < |m.blocks| && m.blocks[c].Create?
    ensures var (s', ref) := Spawn(m, s, c);
            FreeCount(s', r) - (if ValidRef(s', r) then 1 else 0)
            == FreeCount(s, r) - (if ValidRef(s, r) then 1 else 0) - (if ref == r then 1 else 0)
  {
    assert BlockLinked(m, c);
    var typ := m.blocks[c].entity;
    var p := s.pools[typ - 1];
    var p' := Spawn(m, s, c).0.pools[typ - 1];
    if p.free == [] {
      assert p'.free == p.free;
    } else {
      var n := |p.free| - 1;
      assert p.free == p'.free + [p.free[n]];
      assert multiset(p.free) == multiset(p'.free) + multiset{p.free[n]};
    }
  }

  lemma PlaceCreateBalance(m: Model, r: EntityRef)
    ensures CreateEventBalance(m, PlaceTally(r))
  {
    var t := PlaceTally(r);
    forall s, c: nat, x: BlockState | Linked(m) && Fits(m, s) && c < |m.blocks| && m.blocks[c].Create?
      ensures t.block(c, Created(x)) - t.block(c, x) + t.store(Spawn(m, s, c).0) - t.store(s)
              == -t.weight(Spawn(m, s, c).1)
    {
      SpawnCount(m, s, c, r);
    }
    forall s, c: nat, x: BlockState, ref | Fits(m, s) && c < |m.blocks| && m.blocks[c].Create? && ValidRef(s, ref)
      ensures t.block(c, Dropped(x)) - t.block(c, x) + t.store(FreeEntity(m, s, ref)) - t.store(s) == t.weight(ref)
    {
      FreedCount(m, s, r, ref);
    }
  }

  lemma PlacesConserved(m: Model, r: EntityRef)
    ensures Conserved(m, PlaceTally(r), PlaceTaken(r))
  {
    PlaceBlockBalance(m, r);
    PlaceQueueBalance(m, r);
    PlaceStoreBalance(m, r);
    PlaceDelayBalance(m, r);
    PlaceCreateBalance(m, r);
  }

  // ---------- the results ----------

  /** Along a run nothing is lost, duplicated or freed twice. */
  lemma EachPlacedOnceOnRuns(m: Model, run: seq<State>, k: nat)
    requires IsRun(m, run) && k < |run|
    ensures Fits(m, run[k])
    ensures !run[k].stop ==> EachPlacedOnce(run[k])
  {
    PrefixesAreRuns(m, run, k);
    var prefix := run[..k + 1];
    BusyMatchesOnRuns(m, prefix);
    if !run[k].stop {
      forall r
        ensures Places(run[k], r) == if ValidRef(run[k], r) then 1 else 0
      {
        PlacesConserved(m, r);
        forall vars, rng | |vars| == |m.vars|
          ensures ValueOf(PlaceTally(r), Initial(m, vars, rng)) == 0
        {
          InitialPlaces(m, vars, rng, r);
        }
        ZeroOnRuns(m, PlaceTally(r), PlaceTaken(r), prefix);
        PlaceValue(run[k], r);
      }
    }
  }

  lemma InitialPlaces(m: Model, vars: seq<Value>, rng: nat, r: EntityRef)
    requires |vars| == |m.vars|
    ensures ValueOf(PlaceTally(r), Initial(m, vars, rng)) == 0
  {
    var s := Initial(m, vars, rng);
    SumToZero(BlockTerms(PlaceTally(r), s.blocks), |s.blocks|);
  }

  lemma TurnPlaces(m: Model, s: State, i: nat, r: EntityRef)
    requires Linked(m) && Fits(m, s) && BusyMatches(m, s) && Next(s, i) && EventFits(m, s, s.pending[i])
    requires Places(s, r) == if ValidRef(s, r) then 1 else 0
    ensures var s' := Step(m, s, i);
            var hand := StrandedBy(m, Take(m, s, i), s.pending[i].handler.action);
            Places(s', r) == (if ValidRef(s', r) then 1 else 0) - (if hand == Some(r) then 1 else 0)
  {
    hide Linked, BusyMatches, Step, Places;
    PlacesConserved(m, r);
    ConservedMoves(m, PlaceTally(r), PlaceTaken(r));
    TurnConserves(m, AsPotential(PlaceTally(r)), PlaceTaken(r), s, i);
    PlaceValue(s, r);
    PlaceValue(Step(m, s, i), r);
    StrandedIsTheCompleted(m, s, i);
  }

  lemma TurnStrandsAtMostOne(m: Model, s: State, i: nat)
    requires Linked(m) && Fits(m, s) && BusyMatches(m, s) && Next(s, i) && EventFits(m, s, s.pending[i])
             && EachPlacedOnce(s)
    ensures var hand := StrandedBy(m, Take(m, s, i), s.pending[i].handler.action);
            EachPlacedOnceBut(Step(m, s, i), hand) && (hand.Some? ==> Step(m, s, i).stop)
  {
    var hand := StrandedBy(m, Take(m, s, i), s.pending[i].handler.action);
    var s' := Step(m, s, i);
    forall r
      ensures Places(s', r) == (if ValidRef(s', r) then 1 else 0) - (if hand == Some(r) then 1 else 0)
    {
      assert Places(s, r) == if ValidRef(s, r) then 1 else 0;
      TurnPlaces(m, s, i, r);
    }
    StrandsOnlyIfStopped(m, Take(m, s, i), s.pending[i].handler.action);
  }

  /** The turn that stops the simulation leaves at most one entity without a place: the one in hand. */
  lemma LastTurnStrandsAtMostOne(m: Model, run: seq<State>)
    requires IsRun(m, run) && |run| > 1
    ensures exists hand: Option<EntityRef> ::
            EachPlacedOnceBut(run[|run| - 1], hand) && (hand.Some? ==> run[|run| - 1].stop)
  {
    var i := LastTurn(m, run);
    var n := |run| - 1;
    EachPlacedOnceOnRuns(m, run[..n], n - 1);
    BusyMatchesOnRuns(m, run[..n]);
    TurnStrandsAtMostOne(m, run[n - 1], i);
  }

  lemma StrandedIsTheCompleted(m: Model, s: State, i: nat)
    requires Linked(m) && Fits(m, s) && i < |s.pending| && EventFits(m, s, s.pending[i])
    ensures var a := s.pending[i].handler.action;
            a.Completion? ==> StrandedBy(m, Take(m, s, i), a) in {None, Some(a.ref)}
  {
  }

  // ---------- startup ----------

  /** The entities left in hand by startCreateBlocks: it runs every CREATE, even after a stop. */
  ghost function StrandedAtStart(m: Model, s: State, b: nat): seq<EntityRef>
    requires Linked(m) && Fits(m, s) && b <= |m.blocks|
    decreases |m.blocks| - b
  {
    if b == |m.blocks| then []
    else if !m.blocks[b].Create? then StrandedAtStart(m, s, b + 1)
    else LeftBehind(m, s, b) + StrandedAtStart(m, Started(m, s, b), b + 1)
  }

  /** What startCreateBlocks does with one CREATE, and the entity that leaves in hand, if any. */
  ghost function Started(m: Model, s: State, b: BlockId): (s': State)
    requires Linked(m) && Fits(m, s) && b < |m.blocks| && m.blocks[b].Create?
    ensures Fits(m, s')
  {
    if m.blocks[b].immediately then HandleArrival(m, s, b) else ScheduleArrival(m, s, b)
  }

  ghost function LeftBehind(m: Model, s: State, b: BlockId): seq<EntityRef>
    requires Linked(m) && Fits(m, s) && b < |m.blocks| && m.blocks[b].Create?
  {
    if !m.blocks[b].immediately then []
    else match StrandedBy(m, s, Arrival(b)) case None => [] case Some(ref) => [ref]
  }

  lemma ArrivalPlaces(m: Model, s: State, b: BlockId, r: EntityRef)
    requires Linked(m) && Fits(m, s) && b < |m.blocks| && m.blocks[b].Create?
    ensures ValueOf(PlaceTally(r), ScheduleArrival(m, s, b)) == ValueOf(PlaceTally(r), s)
    ensures ValueOf(PlaceTally(r), HandleArrival(m, s, b))
            == ValueOf(PlaceTally(r), s) - (if StrandedBy(m, s, Arrival(b)) == Some(r) then 1 else 0)
  {
    PlacesConserved(m, r);
    ConservedMoves(m, PlaceTally(r), PlaceTaken(r));
    ArrivalConserves(m, AsPotential(PlaceTally(r)), PlaceTaken(r), s, b);
    ArrivalIsFree(m, AsPotential(PlaceTally(r)), PlaceTaken(r), s, b);
  }

  lemma {:induction false} StartPlaces(m: Model, s: State, b: nat, r: EntityRef)
    requires Linked(m) && Fits(m, s) && b <= |m.blocks|
    ensures ValueOf(PlaceTally(r), StartFrom(m, s, b))
            == ValueOf(PlaceTally(r), s) - multiset(StrandedAtStart(m, s, b))[r]
    decreases |m.blocks| - b
  {
    if b < |m.blocks| {
      if !m.blocks[b].Create? {
        StartPlaces(m, s, b + 1, r);
      } else {
        ArrivalPlaces(m, s, b, r);
        StartPlaces(m, Started(m, s, b), b + 1, r);
      }
    }
  }

  /** At startup exactly the stranded entities are without a place, so at most one is, however many
      CREATE blocks there are, exactly if at most one of them gave up. */
  lemma {:induction false} StartStrandsExactly(m: Model, vars: seq<Value>, rng: nat, r: EntityRef)
    requires Linked(m) && |vars| == |m.vars|
    ensures var s := Initial(m, vars, rng);
            Places(StartFrom(m, s, 0), r) + multiset(StrandedAtStart(m, s, 0))[r]
              == if ValidRef(StartFrom(m, s, 0), r) then 1 else 0
  {
    InitialPlaces(m, vars, rng, r);
    StartPlaces(m, Initial(m, vars, rng), 0, r);
    PlaceValue(StartFrom(m, Initial(m, vars, rng), 0), r);
  }
}
