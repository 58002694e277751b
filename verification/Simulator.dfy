/** The emitted program: block functions, event handlers and run loop over the stored state. Every
    method is proved to act on the abstract state as the function of the same name in Semantics. */
module Simulators {
  import opened Options
  import opened EventQueues
  import opened Sums
  import opened SimModel
  import S = Semantics
  import opened Machine
  import opened Runs
  import opened Timeline

  lemma FreeReturnsSlot(m: Model, s: State, ref: EntityRef)
    requires Fits(m, s) && ValidRef(s, ref)
    ensures var desc, p := m.entities[ref.typ - 1], s.pools[ref.typ - 1];
            && PoolFits(desc, p)
            && S.FreeEntity(m, s, ref) == S.SetPool(s, ref.typ, S.ReturnSlot(p, desc.zero, ref.idx))
  {
  }

  lemma WriteSetsField(m: Model, s: State, t: Target, ref: EntityRef, v: Value)
    requires Fits(m, s) && S.Writable(m, s, t, ref) && t.Field?
    ensures var p := s.pools[t.entity - 1];
            && PoolFits(m.entities[t.entity - 1], p) && t.field < |p.entities[ref.idx]|
            && S.Write(m, s, t, ref, v) == S.SetPool(s, t.entity,
                 p.(entities := p.entities[ref.idx := p.entities[ref.idx][t.field := v]]))
  {
  }

  /** One assignment of an ASSIGN block, and what undoing it needs. */
  function AssignOnce(m: Model, s: State, a: Assignment, ref: EntityRef): (r: (State, S.Undo))
    requires Fits(m, s) && ValidRef(s, ref) && TargetFits(m, a.target)
    ensures Fits(m, r.0) && SameSlots(s, r.0)
  {
    if !S.GuardHolds(S.AssignGuard(a), ref) then (s, S.Undo(a.target, None))
    else
      var (v, rng) := a.expr.eval(Look(s), ref);
      (S.Write(m, s.(rng := rng), a.target, ref, v), S.Undo(a.target, Some(S.Read(m, s, a.target, ref))))
  }

  /** Running the rest from u on, with the log so far, completes running xs from s on. */
  ghost predicate StillToAssign(m: Model, u: State, rest: seq<Assignment>, log: seq<S.Undo>, s: State,
                                xs: seq<Assignment>, ref: EntityRef)
    requires Fits(m, u) && ValidRef(u, ref) && Fits(m, s) && ValidRef(s, ref)
    requires (forall x <- rest :: TargetFits(m, x.target)) && forall x <- xs :: TargetFits(m, x.target)
  {
    var r := S.RunAssignments(m, u, rest, ref);
    S.RunAssignments(m, s, xs, ref) == (r.0, log + r.1)
  }

  lemma AssignNext(m: Model, u: State, rest: seq<Assignment>, log: seq<S.Undo>, s: State, xs: seq<Assignment>,
                   ref: EntityRef)
    requires Fits(m, u) && ValidRef(u, ref) && Fits(m, s) && ValidRef(s, ref)
    requires (forall x <- rest :: TargetFits(m, x.target)) && forall x <- xs :: TargetFits(m, x.target)
    requires rest != [] && StillToAssign(m, u, rest, log, s, xs, ref)
    ensures var (u', change) := AssignOnce(m, u, rest[0], ref);
            StillToAssign(m, u', rest[1..], log + [change], s, xs, ref)
  {
    var (u', change) := AssignOnce(m, u, rest[0], ref);
    var r := S.RunAssignments(m, u', rest[1..], ref);
    assert log + ([change] + r.1) == (log + [change]) + r.1;
  }

  /** The batch loop as a recursion on the number of entities still to be made. */
  ghost function GenerateRest(m: Model, s: State, c: BlockId, n: nat): (r: (State, Option<EntityRef>))
    requires Linked(m) && Fits(m, s) && c < |m.blocks| && m.blocks[c].Create?
    ensures Fits(m, r.0)
    decreases n
  {
    if n == 0 then (s, None)
    else
      var one := S.GenerateOne(m, s, c);
      if one.1.Some? then one else GenerateRest(m, one.0, c, n - 1)
  }

  lemma GenerateBody(m: Model, s: State, c: BlockId)
    requires Linked(m) && Fits(m, s) && c < |m.blocks| && m.blocks[c].Create?
    ensures S.BatchBody(m, c)(s) == S.GenerateOne(m, s, c)
  {
  }

  lemma {:induction false} GenerateIsLoop(m: Model, s: State, c: BlockId, n: nat)
    requires Linked(m) && Fits(m, s) && c < |m.blocks| && m.blocks[c].Create?
    ensures S.Generate(m, s, c, n) == GenerateRest(m, s, c, n)
    decreases n
  {
    hide S.GenerateOne;
    if n > 0 {
      GenerateBody(m, s, c);
      GenerateIsLoop(m, S.GenerateOne(m, s, c).0, c, n - 1);
    }
  }

  /** Making left more entities from u on leads to the outcome of making n from s on. */
  ghost predicate StillToGenerate(m: Model, u: State, left: nat, s: State, n: nat, c: BlockId)
    requires Linked(m) && Fits(m, u) && Fits(m, s) && c < |m.blocks| && m.blocks[c].Create?
  {
    GenerateRest(m, u, c, left) == GenerateRest(m, s, c, n)
  }

  ghost predicate Generated(m: Model, u: State, stranded: Option<EntityRef>, s: State, n: nat, c: BlockId)
    requires Linked(m) && Fits(m, s) && c < |m.blocks| && m.blocks[c].Create?
  {
    (u, stranded) == GenerateRest(m, s, c, n)
  }

  ghost predicate GeneratedOne(m: Model, u: State, u': State, stranded: Option<EntityRef>, c: BlockId)
    requires Linked(m) && Fits(m, u) && c < |m.blocks| && m.blocks[c].Create?
  {
    (u', stranded) == S.GenerateOne(m, u, c)
  }

  lemma GenerateNext(m: Model, u: State, left: nat, s: State, n: nat, c: BlockId, u': State,
                     stranded: Option<EntityRef>)
    requires Linked(m) && Fits(m, u) && Fits(m, u') && Fits(m, s) && c < |m.blocks| && m.blocks[c].Create?
    requires left > 0 && StillToGenerate(m, u, left, s, n, c) && GeneratedOne(m, u, u', stranded, c)
    ensures if stranded.Some? then Generated(m, u', stranded, s, n, c) else StillToGenerate(m, u', left - 1, s, n, c)
  {
  }

  lemma ExpireIs(m: Model, s: State, b: BlockId, i: nat, u: State)
    requires Fits(m, s) && b < |s.blocks| && i < |s.blocks[b].waiting|
    requires var x := s.blocks[b]; u == S.With(s, b, x.(waiting := RemoveAt(x.waiting, i), timeoutN := x.timeoutN + 1))
    ensures Fits(m, u) && u == S.Expire(m, s, b, i)
  {
    var s' := S.Expire(m, s, b, i);
    assert u == s';
  }

  /** Event boundaries that follow one another. */
  ghost predicate Chain(m: Model, history: seq<State>) {
    history != [] && forall k: nat {:trigger TurnAt(m, history, k)} :: k + 1 < |history| ==> TurnAt(m, history, k)
  }

  lemma ChainGrows(m: Model, history: seq<State>, s': State, i: nat)
    requires Chain(m, history) && Linked(m)
    requires var s := history[|history| - 1]; Fits(m, s) && S.Next(s, i) && s' == S.Step(m, s, i)
    ensures Chain(m, history + [s'])
  {
    var longer := history + [s'];
    forall k: nat | k + 1 < |longer|
      ensures TurnAt(m, longer, k)
    {
      if k + 1 < |history| {
        assert TurnAt(m, history, k);
      }
    }
  }

  /** What Pop returns has the time of the sentinel: there is no event, or an earliest one is at -1.0. */
  ghost predicate LooksEmpty(s: State) {
    || s.pending == []
    || exists i: nat :: i < |s.pending| && s.pending[i].time == -1.0 && forall e <- s.pending :: -1.0 <= e.time
  }

  /** With non-negative delays the sentinel cannot be mistaken. */
  lemma LooksEmptyIfEmpty(m: Model, run: seq<State>)
    requires IsRun(m, run) && NonNegative(m)
    ensures LooksEmpty(run[|run| - 1]) <==> run[|run| - 1].pending == []
  {
    PendingIsAhead(m, run);
  }

  /** The loop is left after the boundary last; an event popped then is dropped. */
  ghost predicate Closing(last: State, final: State) {
    (last.stop || LooksEmpty(last)) && final == last.(pending := final.pending)
  }

  /** How the loop ends: stopped, or apparently out of events; an event popped then is dropped. */
  ghost predicate Ended(last: State, final: State) {
    && (last.stop || LooksEmpty(last))
    && final == last.(pending := final.pending,
                      reason := if last.reason.NotStopped? then EmptyEventQueue else last.reason)
  }

  class Simulator {
    const m: Model
    const g: Store

    ghost predicate Valid()
      reads g.Repr()
    {
      && g.Valid() && Linked(m) && Fits(m, g.Abs())
      && forall t: nat :: t < |m.entities| ==> g.pools[t].blank == m.entities[t].zero
    }

    constructor (m: Model, vars: seq<Value>, rng: nat)
      requires Linked(m) && |vars| == |m.vars|
      ensures Valid() && fresh(g.Repr()) && this.m == m && g.Abs() == S.Initial(m, vars, rng)
    {
      this.m := m;
      g := new Store(m, vars, rng);
    }

    // ---------- small statements ----------

    method CountEnter(b: BlockId)
      requires Valid() && b < |m.blocks|
      modifies g.Repr()
      ensures Valid() && g.Abs() == S.CountEnter(old(g.Abs()), b)
    {
      ghost var s := g.Abs();
      S.CountFits(m, s, b);
      var c := g.counters[b];
      c := c.(enterN := c.enterN + 1);
      assert S.With(s, b, Recounted(s.blocks[b], c)) == S.CountEnter(s, b);
      hide S.With, S.CountEnter, Recounted, Fits;
      g.SetCounters(b, c);
    }

    method CountExit(b: BlockId)
      requires Valid() && b < |m.blocks|
      modifies g.Repr()
      ensures Valid() && g.Abs() == S.CountExit(old(g.Abs()), b)
    {
      ghost var s := g.Abs();
      S.CountFits(m, s, b);
      var c := g.counters[b];
      c := c.(exitN := c.exitN + 1);
      assert S.With(s, b, Recounted(s.blocks[b], c)) == S.CountExit(s, b);
      hide S.With, S.CountExit, Recounted, Fits;
      g.SetCounters(b, c);
    }

    method CountDrop(b: BlockId)
      requires Valid() && b < |m.blocks|
      modifies g.Repr()
      ensures Valid() && g.Abs() == S.CountDrop(old(g.Abs()), b)
    {
      ghost var s := g.Abs();
      S.CountFits(m, s, b);
      var c := g.counters[b];
      c := c.(dropN := c.dropN + 1);
      assert S.With(s, b, Recounted(s.blocks[b], c)) == S.CountDrop(s, b);
      hide S.With, S.CountDrop, Recounted, Fits;
      g.SetCounters(b, c);
    }

    method CountPass(b: BlockId)
      requires Valid() && b < |m.blocks|
      modifies g.Repr()
      ensures Valid() && g.Abs() == S.CountPass(old(g.Abs()), b)
    {
      ghost var s := g.Abs();
      S.CountFits(m, s, b);
      var c := g.counters[b];
      c := c.(enterN := c.enterN + 1, exitN := c.exitN + 1);
      assert S.With(s, b, Recounted(s.blocks[b], c)) == S.CountPass(s, b);
      hide S.With, S.CountPass, Recounted, Fits;
      g.SetCounters(b, c);
    }

    method Halt(why: StopReason)
      requires Valid()
      modifies g.Repr()
      ensures Valid() && g.Abs() == S.Halt(old(g.Abs()), why)
    {
      S.PlainFits(m, g.Abs(), S.Halt(g.Abs(), why));
      g.Halt(why);
    }

    method FreeEntity(ref: EntityRef)
      requires Valid() && (1 <= ref.typ <= |m.entities| ==> ValidRef(g.Abs(), ref))
      modifies g.Repr()
      ensures Valid() && g.Abs() == S.FreeEntity(m, old(g.Abs()), ref)
    {
      hide Linked, Fits;
      if 1 <= ref.typ <= |m.entities| {
        FreeReturnsSlot(m, g.Abs(), ref);
        assert g.Abs().pools[ref.typ - 1] == g.PoolAt(ref.typ - 1);
        g.ReturnSlot(ref.typ, ref.idx);
      } else {
        Halt(UnknownEntityType);
      }
    }

    method EnterTerminate(b: BlockId, ref: EntityRef) returns (ok: bool)
      requires Valid() && S.Ready(m, g.Abs(), b, ref) && m.blocks[b].Terminate?
      modifies g.Repr()
      ensures Valid() && S.Outcome(g.Abs(), ok) == S.EnterTerminate(m, old(g.Abs()), b, ref)
    {
      S.CountFits(m, g.Abs(), b);
      CountEnter(b);
      FreeEntity(ref);
      ok := true;
    }

    /** The capacity test of QUEUE and DELAY. */
    method AtCapacity(capacity: Option<GlobalExpr<nat>>, used: nat) returns (full: bool)
      requires Valid()
      modifies g.Repr()
      ensures Valid() && (full, g.Abs()) == S.AtCapacity(old(g.Abs()), capacity, used)
    {
      match capacity
      case None => full := false;
      case Some(expr) =>
        var (c, rng) := expr(g.Seen());
        Draw(rng);
        full := used >= c;
    }

    method Draw(rng: nat)
      requires Valid()
      modifies g.Repr()
      ensures Valid() && g.Abs() == old(g.Abs()).(rng := rng)
    {
      S.PlainFits(m, g.Abs(), g.Abs().(rng := rng));
      g.Draw(rng);
    }

    method Schedule(delay: real, a: Action)
      requires Valid() && ActionFits(m, g.Abs(), a)
      modifies g.Repr()
      ensures Valid() && g.Abs() == S.Schedule(old(g.Abs()), delay, a)
    {
      S.ScheduleFits(m, g.Abs(), delay, a);
      g.Schedule(delay, a);
    }

    method Occupy(b: BlockId)
      requires Valid() && b < |m.blocks|
      modifies g.Repr()
      ensures Valid() && g.Abs() == S.Occupy(old(g.Abs()), b)
    {
      ghost var s := g.Abs();
      S.OccupyFits(m, s, b);
      hide Fits, Linked;
      var c := g.counters[b];
      c := c.(enterN := c.enterN + 1, busy := c.busy + 1);
      if c.busy > c.maxBusy {
        c := c.(maxBusy := c.busy);
      }
      assert S.With(s, b, Recounted(s.blocks[b], c)) == S.Occupy(s, b);
      hide S.With, S.Occupy, Recounted;
      g.SetCounters(b, c);
    }

    method EnterDelay(b: BlockId, ref: EntityRef) returns (ok: bool)
      requires Valid() && S.Ready(m, g.Abs(), b, ref) && m.blocks[b].Delay?
      modifies g.Repr()
      ensures Valid() && S.Outcome(g.Abs(), ok) == S.EnterDelay(m, old(g.Abs()), b, ref)
    {
      var full := AtCapacity(m.blocks[b].capacity, g.counters[b].busy);
      if full {
        return false;
      }
      hide Linked, Fits, Look, S.Schedule;
      if !S.GuardHolds(m.blocks[b].duration.entity, ref) {
        Halt(WrongEntityForDuration(b));
        return false;
      }
      Serve(b, ref);
      ok := true;
    }

    /** The entity occupies the DELAY until its completion. */
    method Serve(b: BlockId, ref: EntityRef)
      requires Valid() && b < |m.blocks| && m.blocks[b].Delay? && ValidRef(g.Abs(), ref)
      modifies g.Repr()
      ensures Valid()
      ensures var s := old(g.Abs());
              var (duration, rng) := m.blocks[b].duration.eval(Look(s), ref);
              g.Abs() == S.Schedule(S.Occupy(s.(rng := rng), b), duration, Completion(b, ref))
    {
      hide Linked, Fits, Look, S.Schedule;
      var (duration, rng) := m.blocks[b].duration.eval(g.Seen(), ref);
      Draw(rng);
      Occupy(b);
      Schedule(duration, Completion(b, ref));
    }

    // ---------- queues ----------

    method Push(b: BlockId, ref: EntityRef) returns (idx: nat)
      requires Valid() && b < |m.blocks| && ValidRef(g.Abs(), ref)
      modifies g.Repr()
      ensures Valid() && g.Abs() == S.Push(old(g.Abs()), b, ref) && idx == old(g.Abs()).blocks[b].total
    {
      S.PushFits(m, g.Abs(), b, ref);
      idx := g.Push(b, ref);
    }

    method Admit(b: BlockId, ref: EntityRef) returns (ok: bool)
      requires Valid() && S.Ready(m, g.Abs(), b, ref) && m.blocks[b].Queue?
      modifies g.Repr()
      ensures Valid() && S.Outcome(g.Abs(), ok) == S.Admit(m, old(g.Abs()), b, ref)
    {
      match m.blocks[b].timeout
      case None =>
        var _ := Push(b, ref);
        ok := true;
      case Some(t) =>
        if !S.GuardHolds(t.delay.entity, ref) {
          Halt(WrongEntityForTimeout(b));
          return false;
        }
        var (delay, rng) := t.delay.eval(g.Seen(), ref);
        Draw(rng);
        var idx := Push(b, ref);
        Schedule(delay, Timeout(b, idx));
        ok := true;
    }

    method EnterQueue(b: BlockId, ref: EntityRef) returns (ok: bool)
      requires Valid() && S.Ready(m, g.Abs(), b, ref) && m.blocks[b].Queue?
      modifies g.Repr()
      ensures Valid() && S.Outcome(g.Abs(), ok) == S.EnterQueue(m, old(g.Abs()), b, ref)
      decreases m.rank[b], 2, 0
    {
      var full := AtCapacity(m.blocks[b].capacity, g.queues[b].len);
      if full {
        if m.blocks[b].overflow.None? {
          return false;
        }
        ok := Overflow(b, ref);
        return;
      }
      CountEnter(b);
      ok := Admit(b, ref);
      if ok {
        var _ := TryAdvance(b);
      }
    }

    method Overflow(b: BlockId, ref: EntityRef) returns (ok: bool)
      requires Valid() && S.Ready(m, g.Abs(), b, ref) && m.blocks[b].Queue? && m.blocks[b].overflow.Some?
      modifies g.Repr()
      ensures var s := S.CountDrop(S.CountEnter(old(g.Abs()), b), b);
              && S.Ready(m, s, m.blocks[b].overflow.value, ref)
              && Valid() && S.Outcome(g.Abs(), ok) == S.Enter(m, s, m.blocks[b].overflow.value, ref)
      decreases m.rank[b], 1, 0
    {
      CountEnter(b);
      CountDrop(b);
      S.Reach(m, g.Abs(), m.blocks[b].overflow.value, ref);
      ok := Enter(m.blocks[b].overflow.value, ref);
    }

    method TryAdvance(b: BlockId) returns (ok: bool)
      requires Valid() && IsQueue(m, b)
      modifies g.Repr()
      ensures Valid() && S.Outcome(g.Abs(), ok) == S.TryAdvance(m, old(g.Abs()), b)
      decreases m.rank[b], 1, 0
    {
      ghost var s := g.Abs();
      var ref, found := g.Top(b);
      if !found {
        return false;
      }
      assert BlockLinked(m, b) && QueueFits(s, s.blocks[b].waiting);
      S.Reach(m, s, m.blocks[b].next, ref);
      ok := Enter(m.blocks[b].next, ref);
      if !ok {
        return;
      }
      S.DeleteHeadFits(m, g.Abs(), b);
      g.Delete(b);
      CountExit(b);
    }

    method Wake(qs: seq<BlockId>, ghost bound: nat)
      requires Valid() && forall q <- qs :: IsQueue(m, q) && m.rank[q] < bound
      modifies g.Repr()
      ensures Valid() && g.Abs() == S.Wake(m, old(g.Abs()), qs, bound)
      decreases bound, 0, |qs|
    {
      for i := 0 to |qs|
        invariant Valid()
        invariant S.Wake(m, g.Abs(), qs[i..], bound) == S.Wake(m, old(g.Abs()), qs, bound)
      {
        assert qs[i..][0] in qs && qs[i..][1..] == qs[i + 1..];
        var ok := TryAdvance(qs[i]);
        if ok {
          return;
        }
      }
    }

    method Enter(b: BlockId, ref: EntityRef) returns (ok: bool)
      requires Valid() && S.Ready(m, g.Abs(), b, ref)
      modifies g.Repr()
      ensures Valid() && S.Outcome(g.Abs(), ok) == S.Enter(m, old(g.Abs()), b, ref)
      decreases m.rank[b], 3, 0
    {
      match m.blocks[b]
      case Queue(_, _, _, _) => ok := EnterQueue(b, ref);
      case Delay(_, _, _, _) => ok := EnterDelay(b, ref);
      case Seize(_, _, _) => ok := EnterSeize(b, ref);
      case Release(_, _) => ok := EnterRelease(b, ref);
      case Assign(_, _) => ok := EnterAssign(b, ref);
      case Branch(_, _) => ok := EnterBranch(b, ref);
      case Terminate => ok := EnterTerminate(b, ref);
    }

    // ---------- resources ----------

    method SetResource(k: nat, x: ResourceState)
      requires Valid() && k < |m.resources|
      modifies g.Repr()
      ensures Valid() && g.Abs() == S.SetResource(old(g.Abs()), k, x)
    {
      S.PlainFits(m, g.Abs(), S.SetResource(g.Abs(), k, x));
      g.SetResource(k, x);
    }

    /** busy++ with the high-water mark. */
    method GrabUnit(k: nat)
      requires Valid() && k < |m.resources|
      modifies g.Repr()
      ensures Valid() && g.Abs() == S.GrabUnit(old(g.Abs()), k)
    {
      var x := g.res[k];
      x := x.(busy := x.busy + 1);
      if x.busy > x.maxBusy {
        x := x.(maxBusy := x.busy);
      }
      SetResource(k, x);
    }

    method DropUnit(k: nat)
      requires Valid() && k < |m.resources| && g.Abs().res[k].busy > 0
      modifies g.Repr()
      ensures Valid() && g.Abs() == S.DropUnit(old(g.Abs()), k)
    {
      SetResource(k, g.res[k].(busy := g.res[k].busy - 1));
    }

    method CountSeize(b: BlockId, k: nat)
      requires Valid() && b < |m.blocks| && k < |m.resources|
      modifies g.Repr()
      ensures Valid() && g.Abs() == S.CountSeize(old(g.Abs()), b, k)
    {
      CountPass(b);
      SetResource(k, g.res[k].(seizeN := g.res[k].seizeN + 1));
    }

    method CountRelease(b: BlockId, k: nat)
      requires Valid() && b < |m.blocks| && k < |m.resources|
      modifies g.Repr()
      ensures Valid() && g.Abs() == S.CountRelease(old(g.Abs()), b, k)
    {
      CountPass(b);
      SetResource(k, g.res[k].(releaseN := g.res[k].releaseN + 1));
    }

    method EnterSeize(b: BlockId, ref: EntityRef) returns (ok: bool)
      requires Valid() && S.Ready(m, g.Abs(), b, ref) && m.blocks[b].Seize?
      modifies g.Repr()
      ensures Valid() && S.Outcome(g.Abs(), ok) == S.EnterSeize(m, old(g.Abs()), b, ref)
      decreases m.rank[b], 2, 0
    {
      var k := m.blocks[b].resource;
      if g.res[k].busy >= g.res[k].capacity {
        return false;
      }
      var oldBusy, oldMaxBusy := g.res[k].busy, g.res[k].maxBusy;
      GrabUnit(k);
      S.Reach(m, g.Abs(), m.blocks[b].next, ref);
      ok := Enter(m.blocks[b].next, ref);
      if ok {
        CountSeize(b, k);
      } else {
        SetResource(k, g.res[k].(busy := oldBusy, maxBusy := oldMaxBusy));
      }
    }

    method EnterRelease(b: BlockId, ref: EntityRef) returns (ok: bool)
      requires Valid() && S.Ready(m, g.Abs(), b, ref) && m.blocks[b].Release?
      modifies g.Repr()
      ensures Valid() && S.Outcome(g.Abs(), ok) == S.EnterRelease(m, old(g.Abs()), b, ref)
      decreases m.rank[b], 2, 0
    {
      var k := m.blocks[b].resource;
      if g.res[k].busy == 0 {
        Halt(ReleaseOfIdleResource(b));
        return false;
      }
      var oldBusy := g.res[k].busy;
      DropUnit(k);
      S.Reach(m, g.Abs(), m.blocks[b].next, ref);
      ok := Enter(m.blocks[b].next, ref);
      if ok {
        CountRelease(b, k);
        Wake(WakeList(m, m.resources[k].seizes), m.rank[b]);
      } else {
        SetResource(k, g.res[k].(busy := oldBusy));
      }
    }

    // ---------- assignments ----------

    method Write(t: Target, ref: EntityRef, v: Value)
      requires Valid() && S.Writable(m, g.Abs(), t, ref)
      modifies g.Repr()
      ensures Valid() && g.Abs() == S.Write(m, old(g.Abs()), t, ref, v)
    {
      match t
      case Var(x) => g.SetVar(x, v);
      case Field(e, f) =>
        WriteSetsField(m, g.Abs(), t, ref, v);
        assert g.Abs().pools[e - 1] == g.PoolAt(e - 1);
        g.SetField(e, ref.idx, f, v);
    }

    method Read(t: Target, ref: EntityRef) returns (v: Value)
      requires Valid() && S.Writable(m, g.Abs(), t, ref)
      ensures v == S.Read(m, old(g.Abs()), t, ref)
    {
      ghost var s := g.Abs();
      match t
      case Var(x) => v := g.vars[x];
      case Field(e, f) =>
        assert PoolFits(m.entities[e - 1], s.pools[e - 1]) && s.pools[e - 1] == g.PoolAt(e - 1);
        v := g.pools[e - 1].entities[ref.idx][f];
    }

    method AssignOne(a: Assignment, ref: EntityRef) returns (change: S.Undo)
      requires Valid() && ValidRef(g.Abs(), ref) && TargetFits(m, a.target)
      modifies g.Repr()
      ensures Valid() && (g.Abs(), change) == AssignOnce(m, old(g.Abs()), a, ref)
    {
      hide S.Write, S.Read, Fits;
      if !S.GuardHolds(S.AssignGuard(a), ref) {
        return S.Undo(a.target, None);
      }
      var before := Read(a.target, ref);
      var (v, rng) := a.expr.eval(g.Seen(), ref);
      Draw(rng);
      Write(a.target, ref, v);
      change := S.Undo(a.target, Some(before));
    }

    /** Runs the assignments in order and remembers what each one overwrote. */
    method RunAssignments(xs: seq<Assignment>, ref: EntityRef) returns (log: seq<S.Undo>)
      requires Valid() && ValidRef(g.Abs(), ref)
      requires forall x <- xs :: TargetFits(m, x.target)
      modifies g.Repr()
      ensures Valid() && (g.Abs(), log) == S.RunAssignments(m, old(g.Abs()), xs, ref)
    {
      log := [];
      ghost var s := g.Abs();
      assert xs[0..] == xs;
      assert [] + S.RunAssignments(m, s, xs, ref).1 == S.RunAssignments(m, s, xs, ref).1;
      for i := 0 to |xs|
        invariant Valid() && ValidRef(g.Abs(), ref)
        invariant forall x <- xs[i..] :: TargetFits(m, x.target)
        invariant StillToAssign(m, g.Abs(), xs[i..], log, s, xs, ref)
      {
        assert xs[i..][0] == xs[i] && xs[i..][1..] == xs[i + 1..];
        AssignNext(m, g.Abs(), xs[i..], log, s, xs, ref);
        var change := AssignOne(xs[i], ref);
        log := log + [change];
      }
      assert log + [] == log;
    }

    /** Restores the changed targets from the last assignment to the first. */
    method UndoAssignments(log: seq<S.Undo>, ref: EntityRef)
      requires Valid() && ValidRef(g.Abs(), ref)
      requires forall u <- log :: u.saved.Some? ==> S.Writable(m, g.Abs(), u.target, ref)
      modifies g.Repr()
      ensures Valid() && g.Abs() == S.UndoAssignments(m, old(g.Abs()), log, ref)
    {
      ghost var s := g.Abs();
      var i := |log|;
      while i > 0
        invariant 0 <= i <= |log| && Valid()
        invariant forall u <- log[i..] :: u.saved.Some? ==> S.Writable(m, s, u.target, ref)
        invariant g.Abs() == S.UndoAssignments(m, s, log[i..], ref)
      {
        i := i - 1;
        assert log[i..][0] == log[i] && log[i..][1..] == log[i + 1..] && log[i] in log;
        assert forall u <- log[i..] :: u in log;
        if log[i].saved.Some? {
          S.SlotsWritable(m, s, g.Abs(), log[i].target, ref);
          Write(log[i].target, ref, log[i].saved.value);
        }
      }
      assert log[0..] == log;
    }

    method EnterAssign(b: BlockId, ref: EntityRef) returns (ok: bool)
      requires Valid() && S.Ready(m, g.Abs(), b, ref) && m.blocks[b].Assign?
      modifies g.Repr()
      ensures Valid() && S.Outcome(g.Abs(), ok) == S.EnterAssign(m, old(g.Abs()), b, ref)
      decreases m.rank[b], 2, 0
    {
      ghost var s := g.Abs();
      var log := RunAssignments(m.blocks[b].assignments, ref);
      S.Reach(m, g.Abs(), m.blocks[b].next, ref);
      ok := Enter(m.blocks[b].next, ref);
      if ok {
        CountPass(b);
      } else {
        forall u <- log | u.saved.Some?
          ensures S.Writable(m, g.Abs(), u.target, ref)
        {
          S.SlotsWritable(m, s, g.Abs(), u.target, ref);
        }
        UndoAssignments(log, ref);
      }
    }

    // ---------- branches ----------

    method Holds(c: Condition, ref: EntityRef) returns (holds: bool)
      requires Valid()
      modifies g.Repr()
      ensures Valid() && (g.Abs(), holds) == S.Holds(old(g.Abs()), c, ref)
    {
      match c
      case IsEntity(e) => holds := ref.typ == e;
      case Test(expr) =>
        if !S.GuardHolds(expr.entity, ref) {
          return false;
        }
        var (v, rng) := expr.eval(g.Seen(), ref);
        Draw(rng);
        holds := v;
    }

    /** The chain of else-ifs of a BRANCH. */
    method Choose(b: BlockId, ref: EntityRef) returns (next: Option<BlockId>)
      requires Valid() && b < |m.blocks| && m.blocks[b].Branch? && BlockLinked(m, b)
      modifies g.Repr()
      ensures Valid() && (g.Abs(), next) == S.Choose(m, old(g.Abs()), b, ref)
    {
      var cases := m.blocks[b].cases;
      for i := 0 to |cases|
        invariant Valid()
        invariant S.Select(g.Abs(), cases[i..], ref) == S.Select(old(g.Abs()), cases, ref)
      {
        assert cases[i..][0] == cases[i] && cases[i..][1..] == cases[i + 1..];
        var holds := Holds(cases[i].condition, ref);
        if holds {
          return Some(cases[i].next);
        }
      }
      next := m.blocks[b].orElse;
    }

    method EnterBranch(b: BlockId, ref: EntityRef) returns (ok: bool)
      requires Valid() && S.Ready(m, g.Abs(), b, ref) && m.blocks[b].Branch?
      modifies g.Repr()
      ensures Valid() && S.Outcome(g.Abs(), ok) == S.EnterBranch(m, old(g.Abs()), b, ref)
      decreases m.rank[b], 2, 0
    {
      var next := Choose(b, ref);
      if next.None? {
        Halt(NoBranchMatched(b));
        return false;
      }
      S.Reach(m, g.Abs(), next.value, ref);
      ok := Enter(next.value, ref);
      if ok {
        CountPass(b);
      }
    }

    // ---------- event handlers ----------

    method ScheduleArrival(c: BlockId)
      requires Valid() && c < |m.blocks| && m.blocks[c].Create?
      modifies g.Repr()
      ensures Valid() && g.Abs() == S.ScheduleArrival(m, old(g.Abs()), c)
    {
      var (interval, rng) := m.blocks[c].interval(g.Seen());
      Draw(rng);
      Schedule(interval, Arrival(c));
    }

    method Spawn(c: BlockId) returns (ref: EntityRef)
      requires Valid() && c < |m.blocks| && m.blocks[c].Create?
      modifies g.Repr()
      ensures Valid() && (g.Abs(), ref) == S.Spawn(m, old(g.Abs()), c)
    {
      ghost var s := g.Abs();
      assert BlockLinked(m, c);
      var entity := m.blocks[c].entity;
      assert PoolFits(m.entities[entity - 1], s.pools[entity - 1]) && s.pools[entity - 1] == g.PoolAt(entity - 1);
      var idx := g.TakeSlot(m, entity);
      ref := EntityRef(entity, idx);
      assert (g.Abs(), ref) == S.Alloc(m, s, entity);
      CountCreated(c, s, ref);
    }

    /** The count that follows the allocation of ref in state s. */
    method CountCreated(c: BlockId, ghost s: State, ghost ref: EntityRef)
      requires Valid() && c < |m.blocks| && m.blocks[c].Create? && Fits(m, s)
      requires 1 <= m.blocks[c].entity <= |m.entities| && (g.Abs(), ref) == S.Alloc(m, s, m.blocks[c].entity)
      modifies g.Repr()
      ensures Valid() && (g.Abs(), ref) == S.Spawn(m, s, c)
    {
      ghost var u := g.Abs();
      assert |u.blocks| == |m.blocks|;
      var x := g.counters[c];
      x := x.(createdN := x.createdN + 1);
      assert S.With(u, c, Recounted(u.blocks[c], x)) == S.Spawn(m, s, c).0 && ref == S.Spawn(m, s, c).1;
      hide S.Alloc, S.Spawn, S.With, Recounted, Fits;
      g.SetCounters(c, x);
    }

    /** One pass of the batch loop; stranded tells that the handler returns with the entity in hand. */
    method GenerateOne(c: BlockId) returns (stranded: Option<EntityRef>)
      requires Valid() && c < |m.blocks| && m.blocks[c].Create?
      modifies g.Repr()
      ensures Valid() && (g.Abs(), stranded) == S.GenerateOne(m, old(g.Abs()), c)
    {
      assert BlockLinked(m, c);
      hide S.Enter, S.Spawn, S.FreeEntity;
      var ref := Spawn(c);
      S.Reach(m, g.Abs(), m.blocks[c].next, ref);
      var ok := Enter(m.blocks[c].next, ref);
      if ok {
        CountExit(c);
        stranded := None;
      } else if g.stop {
        stranded := Some(ref);
      } else if m.blocks[c].destroy {
        CountDrop(c);
        FreeEntity(ref);
        stranded := None;
      } else {
        Halt(CannotLeave(c));
        stranded := Some(ref);
      }
    }

    method MakeOne(c: BlockId) returns (stranded: Option<EntityRef>)
      requires Valid() && c < |m.blocks| && m.blocks[c].Create?
      modifies g.Repr()
      ensures Valid() && GeneratedOne(m, old(g.Abs()), g.Abs(), stranded, c)
    {
      stranded := GenerateOne(c);
    }

    /** The batch loop. */
    method GenerateLoop(c: BlockId, batch: nat) returns (stranded: Option<EntityRef>)
      requires Valid() && c < |m.blocks| && m.blocks[c].Create?
      modifies g.Repr()
      ensures Valid() && Generated(m, g.Abs(), stranded, old(g.Abs()), batch, c)
    {
      hide S.GenerateOne;
      ghost var s := g.Abs();
      for i := 0 to batch
        invariant Valid()
        invariant StillToGenerate(m, g.Abs(), batch - i, s, batch, c)
      {
        ghost var u := g.Abs();
        stranded := MakeOne(c);
        GenerateNext(m, u, batch - i, s, batch, c, g.Abs(), stranded);
        if stranded.Some? {
          return;
        }
      }
      stranded := None;
    }

    method Generate(c: BlockId, batch: nat) returns (stranded: Option<EntityRef>)
      requires Valid() && c < |m.blocks| && m.blocks[c].Create?
      modifies g.Repr()
      ensures Valid() && (g.Abs(), stranded) == S.Generate(m, old(g.Abs()), c, batch)
    {
      GenerateIsLoop(m, g.Abs(), c, batch);
      stranded := GenerateLoop(c, batch);
    }

    method HandleArrival(c: BlockId)
      requires Valid() && c < |m.blocks| && m.blocks[c].Create?
      modifies g.Repr()
      ensures Valid() && g.Abs() == S.HandleArrival(m, old(g.Abs()), c)
    {
      var (batch, rng) := m.blocks[c].batch(g.Seen());
      Draw(rng);
      var stranded := Generate(c, batch);
      if stranded.None? && !g.stop {
        ScheduleArrival(c);
      }
    }

    method HandleCompletion(d: BlockId, ref: EntityRef)
      requires Valid() && d < |m.blocks| && m.blocks[d].Delay? && ValidRef(g.Abs(), ref)
      modifies g.Repr()
      ensures Valid() && g.Abs() == S.HandleCompletion(m, old(g.Abs()), d, ref)
    {
      assert BlockLinked(m, d);
      S.Reach(m, g.Abs(), m.blocks[d].next, ref);
      var ok := Enter(m.blocks[d].next, ref);
      if !ok {
        if !g.stop {
          Halt(CannotLeave(d));
        }
        return;
      }
      LeaveDelay(d);
      Wake(m.blocks[d].waitQueues, m.top);
    }

    method LeaveDelay(d: BlockId)
      requires Valid() && d < |m.blocks|
      modifies g.Repr()
      ensures Valid() && g.Abs() == S.LeaveDelay(m, old(g.Abs()), d)
    {
      ghost var s := g.Abs();
      var c := g.counters[d];
      c := c.(exitN := c.exitN + 1);
      if c.busy > 0 {
        c := c.(busy := c.busy - 1);
      }
      assert S.With(s, d, Recounted(s.blocks[d], c)) == S.LeaveDelay(m, s, d);
      hide S.With, S.LeaveDelay, Recounted, Fits;
      g.SetCounters(d, c);
    }

    /** The get of an expiry and its count: the entity leaves the queue if it still waits. */
    method Expire(b: BlockId, ticket: nat) returns (ref: EntityRef, found: bool)
      requires Valid() && b < |m.blocks|
      modifies g.Repr()
      ensures Valid()
      ensures var s := old(g.Abs());
              var i := S.Find(s.blocks[b].waiting, ticket);
              && found == i.Some?
              && (found ==> ref == s.blocks[b].waiting[i.value].ref && g.Abs() == S.Expire(m, s, b, i.value))
              && (!found ==> g.Abs() == s)
    {
      hide S.Expire, S.Find;
      ghost var s := g.Abs();
      ref, found := g.Expire(b, ticket);
      if found {
        ExpireIs(m, s, b, S.Find(s.blocks[b].waiting, ticket).value, g.Abs());
      }
    }

    method HandleTimeout(b: BlockId, ticket: nat)
      requires Valid() && IsQueue(m, b) && m.blocks[b].timeout.Some?
      modifies g.Repr()
      ensures Valid() && g.Abs() == S.HandleTimeout(m, old(g.Abs()), b, ticket)
    {
      ghost var s := g.Abs();
      var ref, found := Expire(b, ticket);
      if !found {
        return;
      }
      assert BlockLinked(m, b) && QueueFits(s, s.blocks[b].waiting);
      S.Reach(m, g.Abs(), m.blocks[b].timeout.value.next, ref);
      var ok := Enter(m.blocks[b].timeout.value.next, ref);
      if ok || g.stop {
        return;
      }
      Halt(CannotLeaveTimeout(b));
    }

    method Handle(a: Action)
      requires Valid() && ActionFits(m, g.Abs(), a)
      modifies g.Repr()
      ensures Valid() && g.Abs() == S.Handle(m, old(g.Abs()), a)
    {
      match a
      case Arrival(c) => HandleArrival(c);
      case Completion(d, ref) => HandleCompletion(d, ref);
      case Timeout(q, ticket) => HandleTimeout(q, ticket);
    }

    // ---------- the program ----------

    method StartBlock(b: BlockId)
      requires Valid() && b < |m.blocks|
      modifies g.Repr()
      ensures Valid() && S.StartFrom(m, g.Abs(), b + 1) == S.StartFrom(m, old(g.Abs()), b)
    {
      hide S.HandleArrival, S.ScheduleArrival;
      if m.blocks[b].Create? {
        if m.blocks[b].immediately {
          HandleArrival(b);
        } else {
          ScheduleArrival(b);
        }
      }
    }

    method StartCreateBlocks()
      requires Valid()
      modifies g.Repr()
      ensures Valid() && g.Abs() == S.StartFrom(m, old(g.Abs()), 0)
    {
      ghost var s := g.Abs();
      for b := 0 to |m.blocks|
        invariant Valid()
        invariant S.StartFrom(m, g.Abs(), b) == S.StartFrom(m, s, 0)
      {
        hide S.StartFrom;
        StartBlock(b);
      }
    }

    /** The body of the run loop for the event that was popped. */
    method Turn(e: Event<Action>, ghost s: State, ghost i: nat)
      requires Valid() && !g.stop && Fits(m, s) && i < |s.pending| && s.pending[i] == e && S.Next(s, i)
      requires g.Abs() == s.(pending := RemoveAt(s.pending, i))
      modifies g.Repr()
      ensures Valid() && g.Abs() == S.Step(m, s, i)
    {
      assert EventFits(m, s, s.pending[i]);
      S.PlainFits(m, g.Abs(), g.Abs().(clock := e.time));
      g.SetClock(e.time);
      Handle(e.handler.action);
      if !g.stop && m.stopRule.Some? && m.stopRule.value(g.Seen()) {
        Halt(StopRuleMet);
      }
    }

    /** Pops an event and, unless that ends the loop, handles it. */
    method TakeTurn() returns (goesOn: bool, ghost i: nat)
      requires Valid()
      modifies g.Repr()
      ensures Valid()
      ensures var s := old(g.Abs());
              && goesOn == !(s.stop || LooksEmpty(s))
              && if goesOn then S.Next(s, i) && g.Abs() == S.Step(m, s, i)
                 else g.Abs() == s.(pending := g.Abs().pending)
    {
      hide S.Step;
      ghost var s := g.Abs();
      var e: Event<Action>;
      e, i := NextEvent();
      assert LooksEmpty(s) <==> e.time == -1.0;
      if e.time == -1.0 || g.stop {
        return false, i;
      }
      Turn(e, s, i);
      goesOn := true;
    }

    /** The run loop, for at most bound events. history lists the event boundaries passed. */
    method Run(bound: nat) returns (ghost history: seq<State>, finished: bool)
      requires Valid()
      modifies g.Repr()
      ensures Valid() && Chain(m, history) && history[0] == old(g.Abs())
      ensures finished ==> Ended(history[|history| - 1], g.Abs())
      ensures !finished ==> |history| == bound + 1 && g.Abs() == history[|history| - 1]
    {
      hide S.Step;
      history := [g.Abs()];
      var handled, ended := 0, false;
      while handled < bound && !ended
        invariant Valid()
        invariant handled <= bound && |history| == handled + 1
        invariant Chain(m, history) && history[0] == old(g.Abs())
        invariant if ended then Closing(history[handled], g.Abs()) else g.Abs() == history[handled]
        decreases bound - handled, !ended
      {
        ghost var s := g.Abs();
        var goesOn, i := TakeTurn();
        if goesOn {
          ChainGrows(m, history, g.Abs(), i);
          history := history + [g.Abs()];
          handled := handled + 1;
          ended := g.stop;
        } else {
          ended := true;
        }
      }
      finished := ended;
      if finished && g.reason.NotStopped? {
        SetReason(EmptyEventQueue);
      }
    }

    method NextEvent() returns (e: Event<Action>, ghost i: nat)
      requires Valid()
      modifies g.Repr()
      ensures Valid()
      ensures var s := old(g.Abs());
              if s.pending == [] then e == Sentinel() && g.Abs() == s
              else && i < |s.pending| && s.pending[i] == e
                   && (forall x <- s.pending :: e.time <= x.time)
                   && g.Abs() == s.(pending := RemoveAt(s.pending, i))
    {
      ghost var s := g.Abs();
      e, i := g.NextEvent();
      if s.pending != [] {
        S.SlotsFit(m, s, g.Abs());
      }
    }

    method SetReason(why: StopReason)
      requires Valid()
      modifies g.Repr()
      ensures Valid() && g.Abs() == old(g.Abs()).(reason := why)
    {
      S.PlainFits(m, g.Abs(), g.Abs().(reason := why));
      g.SetReason(why);
    }
  }

  /** A whole program run: everything proved of runs holds of its event boundaries. */
  method Simulate(m: Model, vars: seq<Value>, rng: nat, bound: nat)
    returns (sim: Simulator, ghost history: seq<State>, finished: bool)
    requires Linked(m) && |vars| == |m.vars|
    ensures sim.Valid() && IsRun(m, history)
    ensures finished ==> Ended(history[|history| - 1], sim.g.Abs())
    ensures finished && NonNegative(m) ==> history[|history| - 1].stop || history[|history| - 1].pending == []
    ensures !finished ==> |history| == bound + 1 && sim.g.Abs() == history[|history| - 1]
  {
    sim := new Simulator(m, vars, rng);
    sim.StartCreateBlocks();
    history, finished := sim.Run(bound);
    if NonNegative(m) {
      LooksEmptyIfEmpty(m, history);
    }
  }
}
