/** What startCreateBlocks leaves behind: it runs every CREATE, whether or not an earlier one has
    stopped the simulation. */
module Startup {
  import opened Options
  import opened SimModel
  import opened Semantics
  import opened Conservation
  import opened Runs
  import opened Placement

  /** The number of immediate CREATE blocks from block b on. */
  function ImmediateFrom(m: Model, b: nat): nat
    requires b <= |m.blocks|
    decreases |m.blocks| - b
  {
    if b == |m.blocks| then 0
    else (if m.blocks[b].Create? && m.blocks[b].immediately then 1 else 0) + ImmediateFrom(m, b + 1)
  }

  /** Each immediate CREATE strands one entity at most, and the others none. */
  lemma {:induction false} StrandedAreFew(m: Model, s: State, b: nat)
    requires Linked(m) && Fits(m, s) && b <= |m.blocks|
    ensures |StrandedAtStart(m, s, b)| <= ImmediateFrom(m, b)
    decreases |m.blocks| - b
  {
    if b < |m.blocks| {
      StrandedAreFew(m, if m.blocks[b].Create? then Started(m, s, b) else s, b + 1);
    }
  }

  /** An entity is left in hand only by a CREATE that stopped, and the stop stays. */
  lemma {:induction false} StrandedMeansStopped(m: Model, s: State, b: nat)
    requires Linked(m) && Fits(m, s) && b <= |m.blocks|
    ensures StrandedAtStart(m, s, b) != [] ==> StartFrom(m, s, b).stop
    decreases |m.blocks| - b
  {
    if b < |m.blocks| {
      if m.blocks[b].Create? {
        StrandsOnlyIfStopped(m, s, Arrival(b));
      }
      StrandedMeansStopped(m, if m.blocks[b].Create? then Started(m, s, b) else s, b + 1);
    }
  }

  /** Every slot has its place, except perhaps the entity in hand of a stopped simulation. */
  ghost predicate AtMostOneAway(s: State) {
    exists hand: Option<EntityRef> :: EachPlacedOnceBut(s, hand) && (hand.Some? ==> s.stop)
  }

  lemma StartStrandsOne(m: Model, vars: seq<Value>, rng: nat)
    requires Linked(m) && |vars| == |m.vars| && ImmediateFrom(m, 0) <= 1
    ensures AtMostOneAway(StartFrom(m, Initial(m, vars, rng), 0))
  {
    var s0 := Initial(m, vars, rng);
    var s, stranded := StartFrom(m, s0, 0), StrandedAtStart(m, s0, 0);
    StrandedAreFew(m, s0, 0);
    StrandedMeansStopped(m, s0, 0);
    var hand := if stranded == [] then None else Some(stranded[0]);
    assert stranded == match hand { case None => [] case Some(ref) => [ref] };
    forall r
      ensures Places(s, r) == (if ValidRef(s, r) then 1 else 0) - (if hand == Some(r) then 1 else 0)
    {
      StartStrandsExactly(m, vars, rng, r);
    }
    assert EachPlacedOnceBut(s, hand) && (hand.Some? ==> s.stop);
  }

  /** With at most one immediate CREATE, no boundary of any run has more than the one entity in hand
      without a place, the stopping one included. */
  lemma OneInHandOnRuns(m: Model, run: seq<State>, k: nat)
    requires IsRun(m, run) && k < |run| && ImmediateFrom(m, 0) <= 1
    ensures AtMostOneAway(run[k])
  {
    if k == 0 {
      var vars, rng := Beginning(m, run);
      StartStrandsOne(m, vars, rng);
    } else {
      PrefixesAreRuns(m, run, k);
      LastTurnStrandsAtMostOne(m, run[..k + 1]);
    }
  }

  // ---------- a model that strands as many as it has immediate CREATEs ----------

  function Always<T>(x: T): GlobalExpr<T> {
    (v: View) => (x, v.rng)
  }

  function AlwaysFor<T>(x: T): Expr<T> {
    Expr(None, (v: View, ref: EntityRef) => (x, v.rng))
  }

  function CloggedCreate(n: nat): Block {
    Create(1, Always(1.0), true, Always(1), false, n)
  }

  /** n immediate CREATE blocks in front of a DELAY that never has room. */
  function Clogged(n: nat): Model {
    Model([EntityDesc([], [])], [], [],
          seq(n, (b: nat) => CloggedCreate(n)) + [Delay(AlwaysFor(1.0), Some(Always(0)), [], n + 1), Terminate],
          None, seq(n, (b: nat) => 1) + [0, 0], 2)
  }

  ghost predicate IsClogged(m: Model, n: nat) {
    && Linked(m) && |m.blocks| == n + 2 && |m.entities| == 1 && m.vars == []
    && (forall b: nat :: b < n ==> m.blocks[b] == CloggedCreate(n))
    && m.blocks[n] == Delay(AlwaysFor(1.0), Some(Always(0)), [], n + 1)
    && m.blocks[n + 1] == Terminate
  }

  lemma CloggedIsLinked(n: nat)
    ensures IsClogged(Clogged(n), n)
  {
    var m := Clogged(n);
    forall b: nat | b < |m.blocks|
      ensures BlockLinked(m, b)
    {
      assert b < n ==> m.blocks[b] == CloggedCreate(n);
    }
  }

  lemma {:induction false} CloggedCount(m: Model, n: nat, b: nat)
    requires IsClogged(m, n) && b <= |m.blocks|
    ensures ImmediateFrom(m, b) == if b <= n then n - b else 0
    decreases |m.blocks| - b
  {
    if b < |m.blocks| {
      CloggedCount(m, n, b + 1);
    }
  }

  /** n slots in the pool and none of them free. */
  ghost predicate Full(s: State, n: nat) {
    |s.pools| == 1 && s.pools[0].free == [] && |s.pools[0].entities| == n
  }

  lemma CloggedDoor(m: Model, n: nat, s: State, ref: EntityRef)
    requires IsClogged(m, n) && Fits(m, s) && ValidRef(s, ref)
    ensures Ready(m, s, n, ref) && Enter(m, s, n, ref) == Outcome(s, false)
  {
    Reach(m, s, n, ref);
    assert s.(rng := s.rng) == s;
  }

  lemma CloggedSpawn(m: Model, n: nat, s: State, c: BlockId, k: nat)
    requires IsClogged(m, n) && Fits(m, s) && c < n && Full(s, k)
    ensures var (s1, ref) := Spawn(m, s, c); ref == EntityRef(1, k) && Full(s1, k + 1)
  {
  }

  lemma CloggedOne(m: Model, n: nat, s: State, c: BlockId, k: nat)
    requires IsClogged(m, n) && Fits(m, s) && c < n && Full(s, k)
    ensures var (s', hand) := GenerateOne(m, s, c); hand == Some(EntityRef(1, k)) && s'.stop && Full(s', k + 1)
  {
    var (s1, ref) := Spawn(m, s, c);
    CloggedSpawn(m, n, s, c, k);
    CloggedDoor(m, n, s1, ref);
    hide Spawn, Enter;
  }

  /** An arrival makes an entity, finds no place for it and stops. */
  lemma CloggedArrival(m: Model, n: nat, s: State, c: BlockId, k: nat)
    requires IsClogged(m, n) && Fits(m, s) && c < n && Full(s, k)
    ensures var s' := HandleArrival(m, s, c);
            StrandedBy(m, s, Arrival(c)) == Some(EntityRef(1, k)) && s'.stop && Full(s', k + 1)
  {
    assert s.(rng := s.rng) == s;
    CloggedOne(m, n, s, c, k);
    hide GenerateOne;
    assert BatchBody(m, c)(s) == GenerateOne(m, s, c);
    assert Passes(BatchBody(m, c), s, 1) == GenerateOne(m, s, c);
  }

  /** The slots b to n - 1 in the order in which they are made. */
  function Slots(b: nat, n: nat): seq<EntityRef>
    decreases n - b
  {
    if b >= n then [] else [EntityRef(1, b)] + Slots(b + 1, n)
  }

  lemma {:induction false} SlotsOnce(b: nat, n: nat, i: nat)
    ensures multiset(Slots(b, n))[EntityRef(1, i)] == if b <= i < n then 1 else 0
    decreases n - b
  {
    if b < n {
      SlotsOnce(b + 1, n, i);
    }
  }

  lemma CloggedNext(m: Model, n: nat, s: State, b: nat)
    requires IsClogged(m, n) && Fits(m, s) && b < n && Full(s, b)
    ensures var next := HandleArrival(m, s, b);
            && Full(next, b + 1) && StartFrom(m, s, b) == StartFrom(m, next, b + 1)
            && StrandedAtStart(m, s, b) == [EntityRef(1, b)] + StrandedAtStart(m, next, b + 1)
  {
    assert m.blocks[b] == CloggedCreate(n);
    CloggedArrival(m, n, s, b, b);
    hide HandleArrival, StrandedBy;
    assert Started(m, s, b) == HandleArrival(m, s, b) && LeftBehind(m, s, b) == [EntityRef(1, b)];
  }

  lemma {:induction false} CloggedFrom(m: Model, n: nat, s: State, b: nat)
    requires IsClogged(m, n) && Fits(m, s) && b <= n && Full(s, b)
    ensures Full(StartFrom(m, s, b), n)
    ensures StrandedAtStart(m, s, b) == Slots(b, n)
    decreases n - b
  {
    assert |m.blocks| == n + 2 && Linked(m) && (b < n ==> m.blocks[b].Create?);
    if b == n {
      CloggedEnd(m, n, s);
    } else {
      CloggedNext(m, n, s, b);
      hide StartFrom, StrandedAtStart, HandleArrival, Full, IsClogged, Fits, Linked;
      CloggedFrom(m, n, HandleArrival(m, s, b), b + 1);
    }
  }

  lemma CloggedEnd(m: Model, n: nat, s: State)
    requires IsClogged(m, n) && Fits(m, s)
    ensures StartFrom(m, s, n) == s && StrandedAtStart(m, s, n) == []
  {
    NothingToStart(m, s, n);
  }

  lemma {:induction false} NothingToStart(m: Model, s: State, b: nat)
    requires Linked(m) && Fits(m, s) && b <= |m.blocks|
    requires forall a: nat :: b <= a < |m.blocks| ==> !m.blocks[a].Create?
    ensures StartFrom(m, s, b) == s && StrandedAtStart(m, s, b) == []
    decreases |m.blocks| - b
  {
    if b < |m.blocks| {
      NothingToStart(m, s, b + 1);
    }
  }

  lemma CloggedPlaces(m: Model, n: nat, i: nat)
    requires IsClogged(m, n) && i < n
    ensures var s, ref := StartFrom(m, Initial(m, [], 0), 0), EntityRef(1, i); ValidRef(s, ref) && Places(s, ref) == 0
  {
    var s := Initial(m, [], 0);
    CloggedFrom(m, n, s, 0);
    SlotsOnce(0, n, i);
    StartStrandsExactly(m, [], 0, EntityRef(1, i));
    hide StartFrom, StrandedAtStart, Initial, Places, Linked, IsClogged, Slots;
    assert ValidRef(StartFrom(m, s, 0), EntityRef(1, i));
  }

  /** startCreateBlocks goes on after a stop: n entities are nowhere. */
  lemma StartupStrandsAll(n: nat)
    ensures var m := Clogged(n);
            && Linked(m) && ImmediateFrom(m, 0) == n
            && var s := StartFrom(m, Initial(m, [], 0), 0);
               forall i: nat :: i < n ==> ValidRef(s, EntityRef(1, i)) && Places(s, EntityRef(1, i)) == 0
  {
    CloggedIsLinked(n);
    CloggedCount(Clogged(n), n, 0);
    hide Clogged, StartFrom, Places;
    forall i: nat | i < n
      ensures var s, ref := StartFrom(Clogged(n), Initial(Clogged(n), [], 0), 0), EntityRef(1, i);
              ValidRef(s, ref) && Places(s, ref) == 0
    {
      CloggedPlaces(Clogged(n), n, i);
    }
  }

  // ---------- what the number of immediate CREATEs guarantees ----------

  /** No run of a model with n immediate CREATEs ever has more than one entity without a place. */
  ghost predicate OneInHand(n: nat) {
    forall m: Model, run: seq<State>, k: nat {:trigger IsRun(m, run), AtMostOneAway(run[k])} ::
      IsRun(m, run) && k < |run| && ImmediateFrom(m, 0) == n ==> AtMostOneAway(run[k])
  }

  /** The guarantee holds exactly up to one immediate CREATE. */
  lemma OneInHandExactly(n: nat)
    ensures OneInHand(n) <==> n <= 1
  {
    if n <= 1 {
      forall m: Model, run: seq<State>, k: nat | IsRun(m, run) && k < |run| && ImmediateFrom(m, 0) == n
        ensures AtMostOneAway(run[k])
      {
        OneInHandOnRuns(m, run, k);
      }
    } else {
      hide *;
      var m, run := TwoAwayAtStart(n);
      assert !AtMostOneAway(run[0]);
      NotOneInHand(n, m, run);
    }
  }

  lemma NotOneInHand(n: nat, m: Model, run: seq<State>)
    requires IsRun(m, run) && run != [] && ImmediateFrom(m, 0) == n && !AtMostOneAway(run[0])
    ensures !OneInHand(n)
  {
    hide IsRun, AtMostOneAway, ImmediateFrom;
  }

  lemma TwoAwayAtStart(n: nat) returns (m: Model, run: seq<State>)
    requires n >= 2
    ensures IsRun(m, run) && run != [] && ImmediateFrom(m, 0) == n && !AtMostOneAway(run[0])
  {
    StartupStrandsAll(n);
    m := Clogged(n);
    assert m.vars == [];
    hide Clogged, StartFrom, Initial, AtMostOneAway, Places, Linked, ImmediateFrom;
    var s := StartFrom(m, Initial(m, [], 0), 0);
    TwoAway(s);
    run := [s];
    assert run[0] == StartFrom(m, Initial(m, [], 0), 0);
  }

  lemma TwoAway(s: State)
    requires forall i: nat :: i < 2 ==> ValidRef(s, EntityRef(1, i)) && Places(s, EntityRef(1, i)) == 0
    ensures !AtMostOneAway(s)
  {
    assert Places(s, EntityRef(1, 0)) == 0 && Places(s, EntityRef(1, 1)) == 0;
  }
}
