/** Two cyclic models that linking accepts: one whose transfers never return, and one in which an
    entity is destroyed twice, because a RELEASE wakes the queue that is just offering its head. */
module Relapse {
  import opened Options
  import opened Sums
  import opened SimModel
  import opened Semantics
  import opened Placement
  import opened Reentry
  import opened LinkedKernel
  import L = Linking
  import R = Reachability

  // ---------- a transfer without end ----------

  /** An ASSIGN that is its own next block calls itself, however many nested calls there may be. */
  lemma {:induction false} NeverReturns(m: Model, s: State, b: BlockId, ref: EntityRef, fuel: nat)
    requires Offered(m, s, b, ref) && m.blocks[b].Assign? && m.blocks[b].next == b
    ensures Hand(m, s, b, ref, fuel).None?
    decreases fuel
  {
    if fuel > 0 {
      assert BlockWired(m, b);
      var s1 := RunAssignments(m, s, m.blocks[b].assignments, ref).0;
      NeverReturns(m, s1, b, ref, fuel - 1);
    }
  }

  /** So does the ASSIGN of the self-feeding source, whatever its expressions. */
  lemma SelfFeedingNeverReturns(t: Tables, m: Model, s: State, ref: EntityRef, fuel: nat)
    requires Compiles(SelfFeeding(), SelfFeedingLinks(), [], t, m) && Offered(m, s, 1, ref)
    ensures Hand(m, s, 1, ref, fuel).None?
  {
    assert Compiled(SelfFeeding().blocks[1].params, SelfFeedingLinks()[1], m.blocks[1], t);
    NeverReturns(m, s, 1, ref, fuel);
  }

  // ---------- which models the interpreter is for ----------

  lemma WiredIfTargets(m: Model, a: nat)
    requires References(m, a) && forall b: nat {:trigger HandsTo(m, a, b)} :: HandsTo(m, a, b) ==> IsTarget(m, b)
    ensures BlockWired(m, a)
  {
    match m.blocks[a]
    case Create(_, _, _, _, _, next) => assert HandsTo(m, a, next);
    case Queue(_, timeout, overflow, next) =>
      assert HandsTo(m, a, next);
      assert overflow.Some? ==> HandsTo(m, a, overflow.value);
      assert timeout.Some? ==> HandsTo(m, a, timeout.value.next);
    case Delay(_, _, waitQueues, next) =>
      assert HandsTo(m, a, next);
      assert forall q <- waitQueues :: exists i: nat :: i < |waitQueues| && waitQueues[i] == q;
    case Seize(_, _, next) => assert HandsTo(m, a, next);
    case Release(_, next) => assert HandsTo(m, a, next);
    case Assign(assignments, next) =>
      assert HandsTo(m, a, next);
      assert forall x <- assignments :: exists i: nat :: i < |assignments| && assignments[i] == x;
    case Branch(cases, orElse) =>
      assert orElse.Some? ==> HandsTo(m, a, orElse.value);
      forall c | c in cases
        ensures IsTarget(m, c.next)
      {
        var i: nat :| i < |cases| && cases[i] == c;
        assert HandsTo(m, a, c.next);
      }
    case Terminate =>
  }

  lemma TargetsIfWired(m: Model, a: nat, b: nat)
    requires a < |m.blocks| && BlockWired(m, a) && HandsTo(m, a, b)
    ensures IsTarget(m, b)
  {
    match m.blocks[a]
    case Branch(cases, _) => assert forall i: nat :: i < |cases| ==> cases[i] in cases;
    case _ =>
  }

  /** Of a model that passed linking it asks exactly that no entity is handed to a CREATE. */
  lemma WiredExactly(src: L.Source, links: seq<L.Links>, seizes: seq<seq<nat>>, t: Tables, m: Model)
    requires PassedLinking(src, links, seizes) && Compiles(src, links, seizes, t, m)
    ensures Wired(m) <==> Enterable(m)
  {
    forall a: nat | a < |m.blocks|
      ensures References(m, a)
    {
      LinkingGivesReferences(src, links, seizes, t, m, a);
    }
    if Enterable(m) {
      forall a: nat | a < |m.blocks|
        ensures BlockWired(m, a)
      {
        WiredIfTargets(m, a);
      }
    }
    if Wired(m) {
      forall a: nat, b: nat | HandsTo(m, a, b) && b < |m.blocks|
        ensures !m.blocks[b].Create?
      {
        TargetsIfWired(m, a, b);
      }
    }
  }

  // ---------- an entity destroyed twice ----------

  const Q: BlockId := 1
  const FORK: BlockId := 2
  const TAKE: BlockId := 3
  const GIVE: BlockId := 4
  const OUT: BlockId := 5

  /** The one resource is idle. */
  function IsIdle(): Expr<bool> {
    Expr(None, (v: View, ref: EntityRef) => (|v.res| > 0 && v.res[0].busy == 0, v.rng))
  }

  /** The head of Q takes the unit if it is there, and gives it back if it is not. */
  function Relapsing(): Model {
    Model([EntityDesc([], [])], [], [ResourceDesc(1, [TAKE])],
          [Create(1, (v: View) => (1.0, v.rng), false, (v: View) => (1, v.rng), false, Q),
           Queue(None, None, None, FORK),
           Branch([Case(Test(IsIdle()), TAKE)], Some(GIVE)),
           Seize(0, [Q], OUT),
           Release(0, OUT),
           Terminate],
          None, [0, 0, 0, 0, 0, 0], 1)
  }

  ghost predicate IsRelapsing(m: Model) {
    && Wired(m) && |m.blocks| == 6 && |m.entities| == 1
    && m.blocks[Q] == Queue(None, None, None, FORK)
    && m.blocks[FORK] == Branch([Case(Test(IsIdle()), TAKE)], Some(GIVE))
    && m.blocks[TAKE] == Seize(0, [Q], OUT)
    && m.blocks[GIVE] == Release(0, OUT)
    && m.blocks[OUT] == Terminate
    && |m.resources| == 1 && m.resources[0].seizes == [TAKE]
  }

  lemma RelapsingIsOne()
    ensures IsRelapsing(Relapsing())
  {
    var m := Relapsing();
    assert WakeList(m, [TAKE]) == [Q] + WakeList(m, []);
    forall a: nat | a < |m.blocks|
      ensures BlockWired(m, a)
    {
      assert a in {0, Q, FORK, TAKE, GIVE, OUT};
    }
  }

  function Again(idx: nat, n: nat): seq<nat> {
    if n == 0 then [] else Again(idx, n - 1) + [idx]
  }

  /** The entity was destroyed n times more; nothing else but counters, Q and the resource moved. */
  ghost predicate Destroyed(s: State, t: State, ref: EntityRef, n: nat) {
    && t.stop == s.stop && t.pending == s.pending && |t.blocks| == |s.blocks| && |t.res| == |s.res|
    && |t.pools| == |s.pools| == 1
    && t.pools[0].free == s.pools[0].free + Again(ref.idx, n)
    && |t.pools[0].entities| == |s.pools[0].entities|
    && (forall b: nat :: b < |s.blocks| && b != Q ==> t.blocks[b].waiting == s.blocks[b].waiting)
    && OUT < |s.blocks| && t.blocks[OUT].enterN == s.blocks[OUT].enterN + n
  }

  /** An entity of the one type can be handed to block b of the model, and the resource has busy units in use. */
  ghost predicate At(m: Model, s: State, b: BlockId, ref: EntityRef, busy: nat) {
    IsRelapsing(m) && Offered(m, s, b, ref) && s.res[0].busy == busy && s.res[0].capacity > 0
  }

  lemma OutDestroys(m: Model, s: State, ref: EntityRef, fuel: nat)
    requires IsRelapsing(m) && Offered(m, s, OUT, ref) && fuel >= 1
    ensures var r := Hand(m, s, OUT, ref, fuel);
            && r.Some? && r.value.ok && Destroyed(s, r.value.st, ref, 1)
            && r.value.st.res == s.res && r.value.st.blocks[Q] == s.blocks[Q]
  {
    assert Hand(m, s, OUT, ref, fuel) == Some(EnterTerminate(m, s, OUT, ref));
    CountFits(m, s, OUT);
    assert Again(ref.idx, 1) == [ref.idx];
    var t := FreeEntity(m, CountEnter(s, OUT), ref);
    assert t.pools[0].free == s.pools[0].free + [ref.idx];
    assert |t.pools[0].entities| == |s.pools[0].entities|;
    assert t.blocks == CountEnter(s, OUT).blocks;
    assert t.blocks[OUT].enterN == s.blocks[OUT].enterN + 1;
    assert Destroyed(s, t, ref, 1);
  }

  lemma TakeDestroys(m: Model, s: State, ref: EntityRef, fuel: nat)
    requires At(m, s, TAKE, ref, 0) && fuel >= 2
    ensures var r := Hand(m, s, TAKE, ref, fuel);
            && r.Some? && r.value.ok && Destroyed(s, r.value.st, ref, 1)
            && r.value.st.res[0].busy == 1 && r.value.st.res[0].capacity == s.res[0].capacity
            && r.value.st.blocks[Q].waiting == s.blocks[Q].waiting
  {
    UnitFits(m, s, TAKE, 0);
    OutDestroys(m, GrabUnit(s, 0), ref, fuel - 1);
  }

  lemma ForkDecides(m: Model, s: State, ref: EntityRef)
    requires IsRelapsing(m) && Fits(m, s)
    ensures Choose(m, s, FORK, ref) == (s, Some(if s.res[0].busy == 0 then TAKE else GIVE))
  {
    var test, idle := IsIdle(), s.res[0].busy == 0;
    assert s.(rng := s.rng) == s;
    assert test.eval(Look(s), ref) == (idle, s.rng);
    assert Holds(s, Test(test), ref) == (s, idle);
    var cases := [Case(Test(test), TAKE)];
    assert cases[1..] == [] && Select(s, [], ref) == (s, None);
    assert Select(s, cases, ref) == (s, if idle then Some(TAKE) else None);
  }

  lemma ForkTakes(m: Model, s: State, ref: EntityRef, fuel: nat)
    requires At(m, s, FORK, ref, 0) && fuel >= 3
    ensures var r := Hand(m, s, FORK, ref, fuel);
            && r.Some? && r.value.ok && Destroyed(s, r.value.st, ref, 1)
            && r.value.st.res[0].busy == 1 && r.value.st.res[0].capacity == s.res[0].capacity
            && r.value.st.blocks[Q].waiting == s.blocks[Q].waiting
  {
    ForkDecides(m, s, ref);
    TakeDestroys(m, s, ref, fuel - 1);
  }

  // ---------- waking the queue that is offering ----------

  /** The queue offers its head, although the head is being offered already. */
  lemma HeadDestroyed(m: Model, s: State, fuel: nat)
    requires IsRelapsing(m) && Fits(m, s) && s.res[0].busy == 0 && s.res[0].capacity > 0
    requires |s.blocks[Q].waiting| == 1 && fuel >= 4
    ensures var r := HandHead(m, s, Q, fuel);
            && r.Some? && r.value.ok && Destroyed(s, r.value.st, s.blocks[Q].waiting[0].ref, 1)
            && r.value.st.res[0].busy == 1 && r.value.st.res[0].capacity > 0 && r.value.st.blocks[Q].waiting == []
  {
    var ref := s.blocks[Q].waiting[0].ref;
    assert BlockWired(m, Q) && QueueFits(s, s.blocks[Q].waiting);
    ForkTakes(m, s, ref, fuel - 1);
  }

  lemma TwiceIsTwo(s: State, t: State, u: State, ref: EntityRef)
    requires Destroyed(s, t, ref, 1) && Destroyed(t, u, ref, 1)
    ensures Destroyed(s, u, ref, 2)
  {
    var free, i := s.pools[0].free, ref.idx;
    assert Again(i, 1) == [i] && Again(i, 2) == Again(i, 1) + [i];
    assert free + [i] + [i] == free + Again(i, 2);
  }

  lemma WokenQueues(m: Model)
    requires IsRelapsing(m)
    ensures WakeList(m, m.resources[0].seizes) == [Q]
  {
    assert WakeList(m, [TAKE]) == [Q] + WakeList(m, []);
  }

  /** The entity is destroyed, the queue is woken while the entity is still its head, and destroys it again. */
  lemma GiveDestroysTwice(m: Model, s: State, ref: EntityRef, fuel: nat)
    requires At(m, s, GIVE, ref, 1) && fuel >= 5
    requires |s.blocks[Q].waiting| == 1 && s.blocks[Q].waiting[0].ref == ref
    ensures var r := Hand(m, s, GIVE, ref, fuel);
            && r.Some? && r.value.ok && Destroyed(s, r.value.st, ref, 2)
            && r.value.st.res[0].busy == 1 && r.value.st.res[0].capacity > 0 && r.value.st.blocks[Q].waiting == []
  {
    UnitFits(m, s, GIVE, 0);
    var s0 := DropUnit(s, 0);
    OutDestroys(m, s0, ref, fuel - 1);
    var t := Hand(m, s0, OUT, ref, fuel - 1).value.st;
    UnitFits(m, t, GIVE, 0);
    var s1 := CountRelease(t, GIVE, 0);
    assert Destroyed(s, s1, ref, 1);
    HeadDestroyed(m, s1, fuel - 1);
    WokenQueues(m);
    var u := HandHead(m, s1, Q, fuel - 1).value.st;
    assert HandQueues(m, s1, [Q], fuel - 1) == Some(u);
    TwiceIsTwo(s, s1, u, ref);
  }

  lemma ForkDestroysTwice(m: Model, s: State, ref: EntityRef, fuel: nat)
    requires At(m, s, FORK, ref, 1) && fuel >= 6
    requires |s.blocks[Q].waiting| == 1 && s.blocks[Q].waiting[0].ref == ref
    ensures var r := Hand(m, s, FORK, ref, fuel);
            && r.Some? && r.value.ok && Destroyed(s, r.value.st, ref, 2)
            && r.value.st.res[0].busy == 1 && r.value.st.res[0].capacity > 0 && r.value.st.blocks[Q].waiting == []
  {
    ForkDecides(m, s, ref);
    GiveDestroysTwice(m, s, ref, fuel - 1);
  }

  /** A transfer into the empty queue while the unit is taken destroys its entity twice, and is accepted. */
  lemma QueueDestroysTwice(m: Model, s: State, ref: EntityRef, fuel: nat)
    requires At(m, s, Q, ref, 1) && s.blocks[Q].waiting == [] && fuel >= 8
    ensures var r := Hand(m, s, Q, ref, fuel);
            && r.Some? && r.value.ok && Destroyed(s, r.value.st, ref, 2)
            && r.value.st.res[0].busy == 1 && r.value.st.res[0].capacity > 0 && r.value.st.blocks[Q].waiting == []
  {
    CountFits(m, s, Q);
    PushFits(m, CountEnter(s, Q), Q, ref);
    var s1 := Push(CountEnter(s, Q), Q, ref);
    assert s.(rng := s.rng) == s;
    ForkDestroysTwice(m, s1, ref, fuel - 2);
    var t := Hand(m, s1, FORK, ref, fuel - 2).value.st;
    assert HandHead(m, s1, Q, fuel - 1) == Some(Outcome(CountExit(DeleteHead(t, Q), Q), true));
    assert Destroyed(s, t, ref, 2);
  }

  /** With the unit there, the entity takes it and goes. */
  lemma QueueDestroysOnce(m: Model, s: State, ref: EntityRef, fuel: nat)
    requires At(m, s, Q, ref, 0) && s.blocks[Q].waiting == [] && fuel >= 8
    ensures var r := Hand(m, s, Q, ref, fuel);
            && r.Some? && r.value.ok && Destroyed(s, r.value.st, ref, 1)
            && r.value.st.res[0].busy == 1 && r.value.st.res[0].capacity > 0 && r.value.st.blocks[Q].waiting == []
  {
    CountFits(m, s, Q);
    PushFits(m, CountEnter(s, Q), Q, ref);
    var s1 := Push(CountEnter(s, Q), Q, ref);
    assert s.(rng := s.rng) == s;
    ForkTakes(m, s1, ref, fuel - 2);
    var t := Hand(m, s1, FORK, ref, fuel - 2).value.st;
    assert HandHead(m, s1, Q, fuel - 1) == Some(Outcome(CountExit(DeleteHead(t, Q), Q), true));
    assert Destroyed(s, t, ref, 1);
  }

  // ---------- the law of placement fails ----------

  lemma {:induction false} AgainCounts(idx: nat, n: nat, i: nat)
    ensures multiset(Again(idx, n))[i] == if i == idx then n else 0
  {
    if n > 0 {
      AgainCounts(idx, n - 1, i);
    }
  }

  lemma {:induction false} SameWaitingCounts(s: State, t: State, r: EntityRef, n: nat)
    requires n <= |s.blocks| == |t.blocks| && forall b: nat :: b < n ==> t.blocks[b].waiting == s.blocks[b].waiting
    ensures SumTo(WaitingCounts(t, r), n) == SumTo(WaitingCounts(s, r), n)
  {
    if n > 0 {
      SameWaitingCounts(s, t, r, n - 1);
    }
  }

  /** Each destruction adds a place on the free list. */
  lemma DestroyedPlaces(s: State, t: State, ref: EntityRef, n: nat)
    requires Destroyed(s, t, ref, n) && ref.typ == 1 && Q < |s.blocks| && t.blocks[Q].waiting == s.blocks[Q].waiting
    ensures Places(t, ref) == Places(s, ref) + n
  {
    AgainCounts(ref.idx, n, ref.idx);
    SameWaitingCounts(s, t, ref, |s.blocks|);
  }

  /** In whatever state every slot but that of the entity in hand has its one place: after the transfer
      the slot is on the free list twice, although nothing has stopped. */
  lemma PlacedTwice(m: Model, s: State, ref: EntityRef, fuel: nat)
    requires At(m, s, Q, ref, 1) && s.blocks[Q].waiting == [] && !s.stop && fuel >= 8
    requires EachPlacedOnceBut(s, Some(ref))
    ensures var r := Hand(m, s, Q, ref, fuel);
            && r.Some? && r.value.ok && !r.value.st.stop
            && ValidRef(r.value.st, ref) && Places(r.value.st, ref) == 2 && !EachPlacedOnce(r.value.st)
  {
    QueueDestroysTwice(m, s, ref, fuel);
    var t := Hand(m, s, Q, ref, fuel).value.st;
    DestroyedPlaces(s, t, ref, 2);
    assert Places(s, ref) == 0;
    assert Places(t, ref) == 2;
  }

  // ---------- from the beginning ----------

  /** The next entity of a CREATE, before it is handed on. */
  function Made(s: State): (r: (State, EntityRef))
    requires |s.pools| == 1 && forall i: nat :: i < |s.pools[0].free| ==> s.pools[0].free[i] < |s.pools[0].entities|
  {
    var (p, i) := TakeSlot(s.pools[0], []);
    (SetPool(s, 1, p), EntityRef(1, i))
  }

  lemma MadeFits(m: Model, s: State)
    requires Fits(m, s) && m.entities == [EntityDesc([], [])]
    ensures PoolFits(m.entities[0], s.pools[0]) && Fits(m, Made(s).0) && ValidRef(Made(s).0, Made(s).1)
    ensures s.pools[0].free == [] ==> Made(s).0.pools[0].free == []
    ensures s.pools[0].free != [] ==>
              var n := |s.pools[0].free| - 1;
              Made(s).0.pools[0].free == s.pools[0].free[..n] && Made(s).1 == EntityRef(1, s.pools[0].free[n])
    ensures Made(s).0 == s.(pools := Made(s).0.pools) && |Made(s).0.pools| == 1
  {
    assert PoolFits(m.entities[0], s.pools[0]);
    TakeSlotFits(m.entities[0], s.pools[0], []);
    GrowFits(m, s, 1, TakeSlot(s.pools[0], []).0);
  }

  /** Between two transfers: nobody waits, and the slots in free are free. */
  ghost predicate Between(m: Model, s: State, busy: nat, free: seq<nat>, destroyed: nat) {
    && IsRelapsing(m) && m.entities == [EntityDesc([], [])] && Fits(m, s) && !s.stop && |s.pools| == 1
    && s.res[0].busy == busy && s.res[0].capacity > 0 && s.blocks[Q].waiting == []
    && s.pools[0].free == free && s.blocks[OUT].enterN == destroyed
  }

  lemma OneMore(m: Model, s: State, busy: nat, free: seq<nat>, destroyed: nat)
    requires Between(m, s, busy, free, destroyed)
    ensures PoolFits(m.entities[0], s.pools[0])
    ensures var (u, ref) := Made(s);
            && At(m, u, Q, ref, busy)
            && (free == [] ==> Between(m, u, busy, [], destroyed))
            && (free != [] ==>
                  && Between(m, u, busy, free[..|free| - 1], destroyed)
                  && ref == EntityRef(1, free[|free| - 1]))
  {
    MadeFits(m, s);
  }

  lemma TakesUnit(m: Model, s: State, ref: EntityRef, fuel: nat) returns (t: State)
    requires At(m, s, Q, ref, 0) && Between(m, s, 0, [], 0) && fuel >= 8
    ensures Hand(m, s, Q, ref, fuel) == Some(Outcome(t, true)) && Between(m, t, 1, [ref.idx], 1)
  {
    QueueDestroysOnce(m, s, ref, fuel);
    t := Hand(m, s, Q, ref, fuel).value.st;
    FreeOnce(s, t, ref);
  }

  lemma GivesUnit(m: Model, s: State, ref: EntityRef, fuel: nat) returns (t: State)
    requires At(m, s, Q, ref, 1) && Between(m, s, 1, [], 1) && fuel >= 8
    ensures Hand(m, s, Q, ref, fuel) == Some(Outcome(t, true)) && Between(m, t, 1, [ref.idx, ref.idx], 3)
  {
    QueueDestroysTwice(m, s, ref, fuel);
    t := Hand(m, s, Q, ref, fuel).value.st;
    FreeTwice(s, t, ref);
  }

  /** The first entity takes the unit. The second gets the slot of the first, gives the unit back, is
      destroyed twice, and the next two entities get one slot together. */
  lemma OneSlotForTwo(fuel: nat) returns (s1: State, s2: State, t: State)
    requires fuel >= 8
    ensures var m := Relapsing();
            && Between(m, Initial(m, [], 0), 0, [], 0) && s1 == Made(Initial(m, [], 0)).0
            && At(m, s1, Q, EntityRef(1, 0), 0)
            && Hand(m, s1, Q, EntityRef(1, 0), fuel) == Some(Outcome(s2, true)) && Between(m, s2, 1, [0], 1)
            && var (u, ref) := Made(s2);
            && ref == EntityRef(1, 0) && At(m, u, Q, ref, 1)
            && Hand(m, u, Q, ref, fuel) == Some(Outcome(t, true)) && Between(m, t, 1, [0, 0], 3)
            && Made(Made(t).0).1 == Made(t).1
  {
    RelapsingStarts();
    var m := Relapsing();
    assert m.vars == [];
    hide Relapsing, Initial, Hand, Made, Fits, IsRelapsing, Wired, Between, At;
    var s := Initial(m, [], 0);
    OneMore(m, s, 0, [], 0);
    s1 := Made(s).0;
    s2 := TakesUnit(m, s1, EntityRef(1, 0), fuel);
    OneMore(m, s2, 1, [0], 1);
    var u := Made(s2).0;
    assert [0][..0] == [];
    t := GivesUnit(m, u, EntityRef(1, 0), fuel);
    TwoMore(m, t);
  }

  lemma TwoMore(m: Model, t: State)
    requires Between(m, t, 1, [0, 0], 3)
    ensures Made(Made(t).0).1 == Made(t).1 == EntityRef(1, 0)
  {
    OneMore(m, t, 1, [0, 0], 3);
    OneMore(m, Made(t).0, 1, [0], 3);
  }

  lemma RelapsingStarts()
    ensures var m := Relapsing();
            Between(m, Initial(m, [], 0), 0, [], 0) && Made(Initial(m, [], 0)).1 == EntityRef(1, 0)
  {
    var m := Relapsing();
    RelapsingIsOne();
    assert Initial(m, [], 0).res[0] == ResourceState(1, 0, 0, 0, 0);
  }

  lemma FreeOnce(s: State, t: State, ref: EntityRef)
    requires Destroyed(s, t, ref, 1) && s.pools[0].free == []
    ensures t.pools[0].free == [ref.idx]
  {
    assert Again(ref.idx, 1) == [ref.idx];
  }

  lemma FreeTwice(s: State, t: State, ref: EntityRef)
    requires Destroyed(s, t, ref, 2) && s.pools[0].free == []
    ensures t.pools[0].free == [ref.idx, ref.idx]
  {
    assert Again(ref.idx, 2) == Again(ref.idx, 1) + [ref.idx] == [ref.idx, ref.idx];
  }

  // ---------- linking accepts the model ----------

  function RelapsingSource(): L.Source {
    L.Source(map["job" := {}], {}, [L.ResourceDesc("unit", ["take"])],
             [L.BlockDesc("in", L.Create("job", "q")),
              L.BlockDesc("q", L.Queue(false, "", false, "", "fork")),
              L.BlockDesc("fork", L.Branch(["take"], true, "give")),
              L.BlockDesc("take", L.Seize("unit", ["q"], "out")),
              L.BlockDesc("give", L.Release("unit", "out")),
              L.BlockDesc("out", L.Terminate)])
  }

  function RelapsingLinks(): seq<L.Links> {
    [L.NO_LINKS.(next := Some(Q)),
     L.NO_LINKS.(next := Some(FORK)),
     L.NO_LINKS.(cases := [TAKE], orElse := Some(GIVE)),
     L.NO_LINKS.(next := Some(OUT), waitQueues := [Q], resource := Some(0)),
     L.NO_LINKS.(next := Some(OUT), resource := Some(0)),
     L.NO_LINKS]
  }

  /** The same, block by block. */
  ghost predicate IsRelapsingSource(src: L.Source, links: seq<L.Links>) {
    && |src.blocks| == |links| == 6 && src.resources == [L.ResourceDesc("unit", ["take"])]
    && src.entities == map["job" := {}] && src.vars == {}
    && (forall i, j :: 0 <= i < j < 6 ==> src.blocks[i].name != src.blocks[j].name)
    && src.blocks[0].params == L.Create("job", "q") && links[0] == L.NO_LINKS.(next := Some(Q))
    && src.blocks[Q] == L.BlockDesc("q", L.Queue(false, "", false, "", "fork"))
    && links[Q] == L.NO_LINKS.(next := Some(FORK))
    && src.blocks[FORK] == L.BlockDesc("fork", L.Branch(["take"], true, "give"))
    && links[FORK] == L.NO_LINKS.(cases := [TAKE], orElse := Some(GIVE))
    && src.blocks[TAKE] == L.BlockDesc("take", L.Seize("unit", ["q"], "out"))
    && links[TAKE] == L.NO_LINKS.(next := Some(OUT), waitQueues := [Q], resource := Some(0))
    && src.blocks[GIVE] == L.BlockDesc("give", L.Release("unit", "out"))
    && links[GIVE] == L.NO_LINKS.(next := Some(OUT), resource := Some(0))
    && src.blocks[OUT] == L.BlockDesc("out", L.Terminate)
  }

  lemma RelapsingNames(src: L.Source, links: seq<L.Links>)
    requires IsRelapsingSource(src, links)
    ensures L.HasBlock(src, "q") && L.HasBlock(src, "fork") && L.HasBlock(src, "take") && L.HasBlock(src, "give")
    ensures L.HasBlock(src, "out") && L.HasQueue(src, "q") && L.HasResource(src, "unit")
    ensures L.Lists(src, "unit", "take") && L.HasSeize(src, "take", "unit")
  {
    assert src.blocks[Q].name == "q" && src.blocks[FORK].name == "fork" && src.blocks[TAKE].name == "take";
    assert src.blocks[GIVE].name == "give" && src.blocks[OUT].name == "out";
    assert src.resources[0].name == "unit" && "take" in src.resources[0].seizes;
  }

  lemma RelapsingBlock(src: L.Source, links: seq<L.Links>, b: nat)
    requires IsRelapsingSource(src, links) && b < 6
    ensures L.BlockOk(src, src.blocks[b]) && L.Resolved(src, src.blocks[b].params, links[b])
  {
    RelapsingNames(src, links);
    hide L.HasBlock, L.HasQueue, L.HasResource, L.Lists, L.HasSeize;
    assert b in {0, Q, FORK, TAKE, GIVE, OUT};
  }

  lemma RelapsingReaches(src: L.Source, links: seq<L.Links>)
    requires IsRelapsingSource(src, links)
    ensures L.WaitQueuesReach(src, links)
  {
    var graph := L.HopsOf(src, links);
    assert graph[FORK] == R.Fork([TAKE], Some(GIVE));
    assert R.IsPath(graph, [FORK, TAKE], FORK, TAKE);
    assert R.CanReach(graph, FORK, TAKE);
    forall b: nat | b < |links|
      ensures L.ReachedBy(src, links, b)
    {
      if b == TAKE {
        assert links[Q].next == Some(FORK);
      }
    }
  }

  lemma RelapsingPasses(src: L.Source, links: seq<L.Links>)
    requires IsRelapsingSource(src, links)
    ensures L.UniqueNames(src) && L.Linkable(src) && PassedLinking(src, links, [[TAKE]])
  {
    forall b: nat | b < 6
      ensures L.BlockOk(src, src.blocks[b]) && L.Resolved(src, src.blocks[b].params, links[b])
    {
      RelapsingBlock(src, links, b);
    }
    RelapsingReaches(src, links);
    RelapsingNames(src, links);
    assert src.blocks[0].params.Create? && src.blocks[OUT].params.Terminate?;
    assert L.ResourceOk(src, src.resources[0]) && L.SeizesResolved(src, src.resources[0], [TAKE]);
    hide L.BlockOk, L.Resolved, L.WaitQueuesReach, L.ResourceOk, L.SeizesResolved;
    assert L.LinkedGraph(src, links);
  }

  lemma RelapsingSourceIsOne()
    ensures IsRelapsingSource(RelapsingSource(), RelapsingLinks())
  {
  }

  function RelapsingTables(): Tables {
    Tables(e => 1, (e, f) => 0, v => 0)
  }

  lemma RelapsingIsCompiled(src: L.Source, links: seq<L.Links>, m: Model)
    requires IsRelapsingSource(src, links) && IsRelapsing(m) && m.entities == [EntityDesc([], [])]
    requires m.blocks[0].Create? && m.blocks[0].entity == 1 && m.blocks[0].next == Q
    ensures Compiles(src, links, [[TAKE]], RelapsingTables(), m)
  {
    forall b: nat | b < 6
      ensures Compiled(src.blocks[b].params, links[b], m.blocks[b], RelapsingTables())
    {
      assert b in {0, Q, FORK, TAKE, GIVE, OUT};
    }
  }

  /** Linking accepts the source of the model. */
  lemma RelapsingComesFromSource()
    ensures var src, links := RelapsingSource(), RelapsingLinks();
            && L.UniqueNames(src) && L.Linkable(src) && PassedLinking(src, links, [[TAKE]])
            && Compiles(src, links, [[TAKE]], RelapsingTables(), Relapsing())
  {
    RelapsingSourceIsOne();
    RelapsingIsOne();
    var m := Relapsing();
    assert m.blocks[0].Create? && m.blocks[0].entity == 1 && m.blocks[0].next == Q;
    assert m.entities == [EntityDesc([], [])];
    hide *;
    RelapsingPasses(RelapsingSource(), RelapsingLinks());
    RelapsingIsCompiled(RelapsingSource(), RelapsingLinks(), m);
  }
}
