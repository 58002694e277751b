/** The global state of the emitted program as it is stored: counters, tombstone queues, pools and
    the event heap. Each operation is one statement or helper function of the emitted code and is
    proved to act on the abstract state like its counterpart in Semantics. */
module Machine {
  import opened EventQueues
  import opened Sums
  import opened Pools
  import opened TombstoneQueues
  import opened SimModel
  import opened Semantics

  /** The counters of a block struct; len, total and maxLen are kept by the block's queue. */
  datatype Counters = Counters(
    createdN: nat, enterN: nat, exitN: nat, dropN: nat, timeoutN: nat, busy: nat, maxBusy: nat)

  function Recounted(x: BlockState, c: Counters): BlockState {
    x.(createdN := c.createdN, enterN := c.enterN, exitN := c.exitN, dropN := c.dropN,
       timeoutN := c.timeoutN, busy := c.busy, maxBusy := c.maxBusy)
  }

  class Store {
    const pools: seq<Pool<Record>>
    const queues: seq<TombstoneQueue>
    const events: EventQueue<Action>

    var clock: real
    var stop: bool
    var reason: StopReason
    var rng: nat
    var vars: seq<Value>
    var res: seq<ResourceState>
    var counters: seq<Counters>

    /** The pending events in the order in which they were scheduled. */
    ghost var scheduled: seq<Event<Action>>

    ghost function Repr(): set<object> {
      {this, events} + (set t | 0 <= t < |pools| :: pools[t]) + (set b | 0 <= b < |queues| :: queues[b])
    }

    ghost predicate Valid()
      reads Repr()
    {
      && (forall t, u :: 0 <= t < u < |pools| ==> pools[t] != pools[u])
      && (forall a, b :: 0 <= a < b < |queues| ==> queues[a] != queues[b])
      && (forall b :: 0 <= b < |queues| ==> queues[b].Valid())
      && |counters| == |queues|
      && events.Valid() && multiset(events.nodes) == multiset(scheduled)
    }

    ghost function PoolAt(t: nat): PoolState
      requires t < |pools|
      reads pools[t]
    {
      PoolState(pools[t].entities, pools[t].freeList)
    }

    ghost function BlockAt(b: nat): BlockState
      requires b < |queues| == |counters| && queues[b].Valid()
      reads this, queues[b]
    {
      Recounted(FRESH_BLOCK.(waiting := queues[b].Queued(), total := queues[b].total, maxLen := queues[b].maxLen),
        counters[b])
    }

    /** The state this store stands for. */
    ghost function Abs(): (s: State)
      requires Valid()
      reads Repr()
      ensures |s.pools| == |pools| && |s.blocks| == |queues|
    {
      State(clock, stop, reason, rng, vars,
            seq(|pools|, (t: nat) requires t < |pools| reads Repr() => PoolAt(t)),
            res,
            seq(|queues|, (b: nat) requires b < |queues| == |counters| && queues[b].Valid() reads Repr() => BlockAt(b)),
            scheduled)
    }

    /** initModel: empty pools, fresh block structs and an empty event queue. */
    constructor (m: Model, vars: seq<Value>, rng: nat)
      requires |vars| == |m.vars|
      ensures Valid() && fresh(Repr()) && Abs() == Initial(m, vars, rng)
      ensures forall t: nat :: t < |m.entities| ==> pools[t].blank == m.entities[t].zero
    {
      var ps := NewPools(m.entities);
      var qs := NewQueues(|m.blocks|);
      pools, queues := ps, qs;
      events := new EventQueue();
      clock, stop, reason := 0.0, false, NotStopped;
      this.rng, this.vars := rng, vars;
      res := seq(|m.resources|,
                 (k: nat) requires k < |m.resources| => ResourceState(m.resources[k].capacity, 0, 0, 0, 0));
      counters := seq(|m.blocks|, b => Counters(0, 0, 0, 0, 0, 0, 0));
      scheduled := [];
      new;
      hide TombstoneQueue.Queued, TombstoneQueue.Valid, EventQueue.Valid;
      assert Abs().pools == Initial(m, vars, rng).pools;
      assert Abs().blocks == Initial(m, vars, rng).blocks;
      assert Abs().res == Initial(m, vars, rng).res;
    }

    static method NewPools(entities: seq<EntityDesc>) returns (pools: seq<Pool<Record>>)
      ensures |pools| == |entities|
      ensures forall t ::
              0 <= t < |pools| ==>
              fresh(pools[t]) && pools[t].entities == [] && pools[t].freeList == []
              && pools[t].blank == entities[t].zero
      ensures forall t, u :: 0 <= t < u < |pools| ==> pools[t] != pools[u]
    {
      pools := [];
      for n := 0 to |entities|
        invariant |pools| == n
        invariant forall t ::
                  0 <= t < n ==>
                  fresh(pools[t]) && pools[t].entities == [] && pools[t].freeList == []
                  && pools[t].blank == entities[t].zero
        invariant forall t, u :: 0 <= t < u < n ==> pools[t] != pools[u]
      {
        var pool := new Pool(entities[n].zero);
        pools := pools + [pool];
      }
    }

    static method NewQueues(count: nat) returns (queues: seq<TombstoneQueue>)
      ensures |queues| == count
      ensures forall b ::
              0 <= b < count ==>
              fresh(queues[b]) && queues[b].Valid() && queues[b].Queued() == [] && queues[b].total == 0
              && queues[b].maxLen == 0
      ensures forall a, b :: 0 <= a < b < count ==> queues[a] != queues[b]
    {
      queues := [];
      for n := 0 to count
        invariant |queues| == n
        invariant forall b ::
                  0 <= b < n ==>
                  fresh(queues[b]) && queues[b].Valid() && queues[b].Queued() == [] && queues[b].total == 0
                  && queues[b].maxLen == 0
        invariant forall a, b :: 0 <= a < b < n ==> queues[a] != queues[b]
      {
        var queue := new TombstoneQueue();
        queues := queues + [queue];
      }
    }

    /** Assigning the counters of block b. */
    method SetCounters(b: BlockId, c: Counters)
      requires Valid() && b < |queues|
      modifies this`counters
      ensures Valid() && Abs() == With(old(Abs()), b, Recounted(old(Abs()).blocks[b], c))
    {
      counters := counters[b := c];
      assert Abs().blocks == With(old(Abs()), b, Recounted(old(Abs()).blocks[b], c)).blocks;
    }

    method SetResource(k: nat, x: ResourceState)
      requires Valid() && k < |res|
      modifies this`res
      ensures Valid() && Abs() == Semantics.SetResource(old(Abs()), k, x)
    {
      res := res[k := x];
    }

    /** Draws move the position in the random stream. */
    method Draw(next: nat)
      requires Valid()
      modifies this`rng
      ensures Valid() && Abs() == old(Abs()).(rng := next)
    {
      rng := next;
    }

    method Halt(why: StopReason)
      requires Valid()
      modifies this`stop, this`reason
      ensures Valid() && Abs() == Semantics.Halt(old(Abs()), why)
    {
      stop, reason := true, why;
    }

    method SetReason(why: StopReason)
      requires Valid()
      modifies this`reason
      ensures Valid() && Abs() == old(Abs()).(reason := why)
    {
      reason := why;
    }

    method Schedule(delay: real, a: Action)
      requires Valid()
      modifies this`scheduled, events
      ensures Valid() && Abs() == Semantics.Schedule(old(Abs()), delay, a)
    {
      var e := Event(clock + delay, Run(a));
      events.Push(e);
      scheduled := scheduled + [e];
      assert Abs().pools == old(Abs()).pools && Abs().blocks == old(Abs()).blocks;
    }

    // ---------- queues ----------

    method Push(b: BlockId, ref: EntityRef) returns (idx: nat)
      requires Valid() && b < |queues|
      modifies queues[b]
      ensures Valid() && idx == old(Abs()).blocks[b].total
      ensures Abs() == Semantics.Push(old(Abs()), b, ref)
    {
      idx := queues[b].Push(ref);
      assert Abs().blocks == Semantics.Push(old(Abs()), b, ref).blocks;
    }

    method Top(b: BlockId) returns (ref: EntityRef, ok: bool)
      requires Valid() && b < |queues|
      modifies queues[b]
      ensures Valid() && Abs() == old(Abs())
      ensures ok == (Abs().blocks[b].waiting != [])
      ensures ok ==> ref == Abs().blocks[b].waiting[0].ref
    {
      ref, ok := queues[b].Top();
      assert Abs().blocks == old(Abs()).blocks;
    }

    method Delete(b: BlockId)
      requires Valid() && b < |queues|
      modifies queues[b]
      ensures Valid() && Abs() == DeleteHead(old(Abs()), b)
    {
      queues[b].Delete();
      assert Abs().blocks == DeleteHead(old(Abs()), b).blocks;
    }

    method Get(b: BlockId, ticket: nat) returns (ref: EntityRef, ok: bool)
      requires Valid() && b < |queues|
      modifies queues[b]
      ensures Valid()
      ensures var x := old(Abs()).blocks[b];
              var i := Find(x.waiting, ticket);
              && ok == i.Some?
              && (ok ==>
                    && ref == x.waiting[i.value].ref
                    && Abs() == With(old(Abs()), b, x.(waiting := RemoveAt(x.waiting, i.value))))
              && (!ok ==> Abs() == old(Abs()))
    {
      hide Find, TombstoneQueue.Queued, TombstoneQueue.Valid, EventQueue.Valid;
      ref, ok := queues[b].Get(ticket);
      ghost var x := old(Abs()).blocks[b];
      ghost var i := Find(x.waiting, ticket);
      if ok {
        assert Abs().blocks == With(old(Abs()), b, x.(waiting := RemoveAt(x.waiting, i.value))).blocks;
      } else {
        assert Abs().blocks == old(Abs()).blocks;
      }
    }

    /** The start of an expiry: the get, and the count if the ticket still waited. */
    method Expire(b: BlockId, ticket: nat) returns (ref: EntityRef, found: bool)
      requires Valid() && b < |queues|
      modifies this`counters, queues[b]
      ensures Valid()
      ensures var x := old(Abs()).blocks[b];
              var i := Find(x.waiting, ticket);
              && found == i.Some?
              && (found ==> && ref == x.waiting[i.value].ref
                            && Abs() == With(old(Abs()), b,
                                 x.(waiting := RemoveAt(x.waiting, i.value), timeoutN := x.timeoutN + 1)))
              && (!found ==> Abs() == old(Abs()))
    {
      ref, found := Get(b, ticket);
      if found {
        SetCounters(b, counters[b].(timeoutN := counters[b].timeoutN + 1));
      }
    }

    // ---------- entities and variables ----------

    method TakeSlot(m: Model, entity: nat) returns (idx: nat)
      requires Valid() && 1 <= entity <= |pools| == |m.entities| && pools[entity - 1].Valid()
      requires pools[entity - 1].blank == m.entities[entity - 1].zero
      modifies pools[entity - 1]
      ensures Valid()
      ensures var (p, i) := Semantics.TakeSlot(old(Abs()).pools[entity - 1], m.entities[entity - 1].defaults);
              idx == i && Abs() == SetPool(old(Abs()), entity, p)
    {
      ghost var p, fill := old(Abs()).pools[entity - 1], m.entities[entity - 1].defaults;
      idx := pools[entity - 1].Alloc();
      pools[entity - 1].Set(idx, m.entities[entity - 1].defaults);
      assert p.free == [] ==> (p.entities + [m.entities[entity - 1].zero])[idx := fill] == p.entities + [fill];
      assert p.free != [] ==> p.free[..|p.free| - 1] == pools[entity - 1].freeList;
      assert PoolAt(entity - 1) == Semantics.TakeSlot(p, fill).0;
      assert Abs().pools == SetPool(old(Abs()), entity, Semantics.TakeSlot(p, fill).0).pools;
      assert Abs().blocks == old(Abs()).blocks;
    }

    method ReturnSlot(typ: nat, idx: nat)
      requires Valid() && 1 <= typ <= |pools| && pools[typ - 1].Valid() && idx < |pools[typ - 1].entities|
      modifies pools[typ - 1]
      ensures Valid()
      ensures Abs() == SetPool(old(Abs()), typ,
              Semantics.ReturnSlot(old(Abs()).pools[typ - 1], pools[typ - 1].blank, idx))
    {
      pools[typ - 1].Free(idx);
      assert Abs().pools == SetPool(old(Abs()), typ,
        Semantics.ReturnSlot(old(Abs()).pools[typ - 1], pools[typ - 1].blank, idx)).pools;
      assert Abs().blocks == old(Abs()).blocks;
    }

    method SetVar(x: nat, v: Value)
      requires Valid() && x < |vars|
      modifies this`vars
      ensures Valid() && Abs() == old(Abs()).(vars := old(Abs()).vars[x := v])
    {
      vars := vars[x := v];
    }

    method SetField(e: nat, idx: nat, f: nat, v: Value)
      requires Valid() && 1 <= e <= |pools| && pools[e - 1].Valid() && idx < |pools[e - 1].entities|
               && f < |pools[e - 1].entities[idx]|
      modifies pools[e - 1]
      ensures Valid()
      ensures var p := old(Abs()).pools[e - 1];
              Abs() == SetPool(old(Abs()), e, p.(entities := p.entities[idx := p.entities[idx][f := v]]))
    {
      ghost var p := old(Abs()).pools[e - 1];
      pools[e - 1].Set(idx, pools[e - 1].entities[idx][f := v]);
      assert Abs().pools == SetPool(old(Abs()), e, p.(entities := p.entities[idx := p.entities[idx][f := v]])).pools;
      assert Abs().blocks == old(Abs()).blocks;
    }

    // ---------- reading ----------

    /** What expressions see. */
    function Seen(): (v: View)
      requires Valid()
      reads Repr()
      ensures v == Look(Abs())
    {
      var v := View(clock, rng, vars,
           seq(|pools|, (t: nat) requires t < |pools| reads Repr() => pools[t].entities),
           res,
           seq(|queues|, (b: nat) requires b < |queues| == |counters| reads Repr() =>
             Metrics(counters[b].createdN, counters[b].enterN, counters[b].exitN, counters[b].dropN,
               counters[b].timeoutN,
                     counters[b].busy, counters[b].maxBusy, queues[b].len, queues[b].maxLen)));
      assert v.entities == Look(Abs()).entities;
      assert v.metrics == Look(Abs()).metrics;
      v
    }

    // ---------- the event loop's side ----------

    /** Pops an earliest event and sets the clock to its time. */
    method NextEvent() returns (e: Event<Action>, ghost i: nat)
      requires Valid()
      modifies this`scheduled, events
      ensures Valid()
      ensures old(Abs()).pending == [] ==> e == Sentinel() && Abs() == old(Abs())
      ensures old(Abs()).pending != [] ==>
                && i < |old(Abs()).pending| && old(Abs()).pending[i] == e
                && (forall x <- old(Abs()).pending :: e.time <= x.time)
                && Abs() == old(Abs()).(pending := RemoveAt(old(Abs()).pending, i))
    {
      hide TombstoneQueue.Queued, TombstoneQueue.Valid;
      ghost var was := old(scheduled);
      if |events.nodes| == 0 {
        assert multiset(scheduled) == multiset{};
      }
      ghost var nodes := events.nodes;
      e := events.Pop();
      if nodes == [] {
        assert |multiset(scheduled)| == 0;
        i := 0;
      } else {
        assert e in multiset(was);
        i :| i < |was| && was[i] == e;
        RemoveAtMultiset(was, i);
        scheduled := RemoveAt(was, i);
        forall x | x in was
          ensures e.time <= x.time
        {
          assert x in multiset(was);
        }
      }
      assert Abs().pools == old(Abs()).pools && Abs().blocks == old(Abs()).blocks;
    }

    method SetClock(time: real)
      requires Valid()
      modifies this`clock
      ensures Valid() && Abs() == old(Abs()).(clock := time)
    {
      clock := time;
    }
  }
}
