/** What the handlers of events do, and when the simulation goes on: in the same terms as the laws of
    the blocks. */
module EventLaws {
  import opened Options
  import opened EventQueues
  import opened SimModel
  import opened Semantics
  import opened Runs
  import opened BlockLaws

  // ---------- completions ----------

  /** The place that an entity had in DELAY d is free again. */
  function Vacated(s: State, d: BlockId): State
    requires d < |s.blocks|
  {
    var x := s.blocks[d];
    s.(blocks := s.blocks[d := x.(exitN := x.exitN + 1, busy := if x.busy == 0 then 0 else x.busy - 1)])
  }

  /** A served entity is handed to the next block; once taken, its place is free and the wait queues
      are woken. If the next block refuses, the simulation stops. */
  lemma CompletionHandsOn(m: Model, s: State, d: BlockId, ref: EntityRef)
    requires Linked(m) && Fits(m, s) && d < |m.blocks| && m.blocks[d].Delay? && ValidRef(s, ref)
    ensures var next, queues, s' := m.blocks[d].next, m.blocks[d].waitQueues, HandleCompletion(m, s, d, ref);
            && Ready(m, s, next, ref)
            && var taken := Enter(m, s, next, ref);
               && d < |taken.st.blocks|
               && (taken.ok ==>
                    && Fits(m, Vacated(taken.st, d)) && (forall q <- queues :: IsQueue(m, q) && m.rank[q] < m.top)
                    && s' == Wake(m, Vacated(taken.st, d), queues, m.top))
               && (!taken.ok && taken.st.stop ==> s' == taken.st)
               && (!taken.ok && !taken.st.stop ==> s' == taken.st.(stop := true, reason := CannotLeave(d)))
  {
    assert BlockLinked(m, d);
    hide Enter, Wake, Fits, LeaveDelay, Vacated;
    var next := m.blocks[d].next;
    Reach(m, s, next, ref);
    Sized(m, Enter(m, s, next, ref).st);
    LeavingVacates(m, Enter(m, s, next, ref).st, d);
  }

  lemma LeavingVacates(m: Model, s: State, d: BlockId)
    requires Fits(m, s) && d < |s.blocks|
    ensures LeaveDelay(m, s, d) == Vacated(s, d)
  {
  }

  // ---------- expiries ----------

  /** A ticket that no longer waits is ignored. */
  lemma DepartedTicket(m: Model, s: State, q: BlockId, ticket: nat)
    requires Linked(m) && Fits(m, s) && IsQueue(m, q) && m.blocks[q].timeout.Some?
    requires forall i: nat :: i < |s.blocks[q].waiting| ==> s.blocks[q].waiting[i].ticket != ticket
    ensures HandleTimeout(m, s, q, ticket) == s
  {
  }

  /** The entity at position i is no longer in QUEUE q: its time was up. */
  function Expired(s: State, q: BlockId, i: nat): State
    requires q < |s.blocks| && i < |s.blocks[q].waiting|
  {
    var x := s.blocks[q];
    s.(blocks := s.blocks[q := x.(waiting := x.waiting[..i] + x.waiting[i + 1..], timeoutN := x.timeoutN + 1)])
  }

  /** An entity that still waits leaves its queue and is handed to the block that the timeout names. */
  lemma ExpiryHandsOn(m: Model, s: State, q: BlockId, i: nat)
    requires Linked(m) && Fits(m, s) && IsQueue(m, q) && m.blocks[q].timeout.Some? && i < |s.blocks[q].waiting|
    requires forall j: nat :: j < i ==> s.blocks[q].waiting[j].ticket != s.blocks[q].waiting[i].ticket
    ensures var w, next, u := s.blocks[q].waiting[i], m.blocks[q].timeout.value.next, Expired(s, q, i);
            var s' := HandleTimeout(m, s, q, w.ticket);
            && Ready(m, u, next, w.ref)
            && var taken := Enter(m, u, next, w.ref);
               s' == if taken.ok || taken.st.stop then taken.st
                     else taken.st.(stop := true, reason := CannotLeaveTimeout(q))
  {
    hide Enter, Fits, Find;
    QueueValid(m, s, q, i);
    var w, ws := s.blocks[q].waiting[i], s.blocks[q].waiting;
    FindsFirst(ws, i);
    assert BlockLinked(m, q);
    assert Expire(m, s, q, i) == Expired(s, q, i);
    Reach(m, Expire(m, s, q, i), m.blocks[q].timeout.value.next, w.ref);
  }

  lemma QueueValid(m: Model, s: State, q: BlockId, i: nat)
    requires Fits(m, s) && q < |m.blocks|
    ensures q < |s.blocks| && (i < |s.blocks[q].waiting| ==> ValidRef(s, s.blocks[q].waiting[i].ref))
  {
    assert QueueFits(s, s.blocks[q].waiting);
  }

  lemma {:induction false} FindsFirst(ws: seq<Waiting>, i: nat)
    requires i < |ws| && forall j: nat :: j < i ==> ws[j].ticket != ws[i].ticket
    ensures Find(ws, ws[i].ticket) == Some(i)
    decreases |ws|
  {
    if i > 0 {
      assert ws[0].ticket != ws[i].ticket;
      forall j: nat | j < i - 1
        ensures ws[1..][j].ticket != ws[i].ticket
      {
        assert ws[1..][j] == ws[j + 1];
      }
      FindsFirst(ws[1..], i - 1);
    }
  }

  // ---------- arrivals ----------

  /** t is s with one entity more, in a slot freed earlier or a new one; its fields have the declared
      defaults, and CREATE c has counted it. */
  predicate Made(m: Model, s: State, t: State, c: BlockId, ref: EntityRef)
    requires c < |m.blocks| && m.blocks[c].Create?
  {
    && ref.typ == m.blocks[c].entity && 1 <= ref.typ <= |s.pools| && ref.typ <= |m.entities| && c < |s.blocks|
    && var p, record, x := s.pools[ref.typ - 1], m.entities[ref.typ - 1].defaults, s.blocks[c];
       var n := |p.free|;
       && (if n == 0 then ref.idx == |p.entities| else ref.idx == p.free[n - 1] < |p.entities|)
       && var q := if n == 0 then PoolState(p.entities + [record], [])
                   else PoolState(p.entities[ref.idx := record], p.free[..n - 1]);
          t == s.(pools := s.pools[ref.typ - 1 := q], blocks := s.blocks[c := x.(createdN := x.createdN + 1)])
  }

  lemma SpawnMakes(m: Model, s: State, c: BlockId)
    requires Linked(m) && Fits(m, s) && c < |m.blocks| && m.blocks[c].Create?
    ensures Made(m, s, Spawn(m, s, c).0, c, Spawn(m, s, c).1)
  {
    assert BlockLinked(m, c);
    var typ := m.blocks[c].entity;
    assert PoolFits(m.entities[typ - 1], s.pools[typ - 1]);
  }

  /** One pass of a batch: a new entity is handed to the next block. If it is refused it is destroyed
      where the CREATE says so; else the simulation stops with the entity in hand. */
  lemma PassHandsOn(m: Model, s: State, c: BlockId) returns (u: State, ref: EntityRef)
    requires Linked(m) && Fits(m, s) && c < |m.blocks| && m.blocks[c].Create?
    ensures Made(m, s, u, c, ref) && Ready(m, u, m.blocks[c].next, ref)
    ensures var taken, r := Enter(m, u, m.blocks[c].next, ref), GenerateOne(m, s, c);
            && c < |taken.st.blocks|
            && var t, x := taken.st, taken.st.blocks[c];
               if taken.ok then r == (t.(blocks := t.blocks[c := x.(exitN := x.exitN + 1)]), None)
               else if t.stop then r == (t, Some(ref))
               else if m.blocks[c].destroy then
                 r.1.None? && Freed(m, t.(blocks := t.blocks[c := x.(dropN := x.dropN + 1)]), r.0, ref)
               else r == (t.(stop := true, reason := CannotLeave(c)), Some(ref))
  {
    hide Enter, Fits, Spawn, Made, FreeEntity, Freed, CountDrop, CountExit;
    assert BlockLinked(m, c);
    var made := Spawn(m, s, c);
    u, ref := made.0, made.1;
    SpawnMakes(m, s, c);
    hide Linked, SameSlots, BlockLinked;
    Reach(m, u, m.blocks[c].next, ref);
    var t := Enter(m, u, m.blocks[c].next, ref).st;
    Sized(m, t);
    CountFits(m, t, c);
    Counters(t, c);
    FreeIsFreed(m, CountDrop(t, c), ref);
  }

  lemma Counters(t: State, c: BlockId)
    requires c < |t.blocks|
    ensures var x := t.blocks[c];
            && CountExit(t, c) == t.(blocks := t.blocks[c := x.(exitN := x.exitN + 1)])
            && CountDrop(t, c) == t.(blocks := t.blocks[c := x.(dropN := x.dropN + 1)])
  {
  }

  lemma FreeIsFreed(m: Model, s: State, ref: EntityRef)
    requires Fits(m, s) && ValidRef(s, ref)
    ensures Freed(m, s, FreeEntity(m, s, ref), ref)
  {
  }

  /** One pass leads from s to t and is not the last. */
  ghost predicate PassedOn(m: Model, s: State, t: State, c: BlockId) {
    && Linked(m) && Fits(m, s) && c < |m.blocks| && m.blocks[c].Create?
    && GenerateOne(m, s, c) == (t, None)
  }

  ghost predicate Batch(m: Model, us: seq<State>, c: BlockId) {
    us != [] && forall i: nat :: i + 1 < |us| ==> PassedOn(m, us[i], us[i + 1], c)
  }

  lemma BatchGrows(m: Model, s: State, us: seq<State>, c: BlockId)
    requires Batch(m, us, c) && PassedOn(m, s, us[0], c)
    ensures Batch(m, [s] + us, c)
  {
    hide PassedOn;
    var vs := [s] + us;
    forall i: nat | i + 1 < |vs|
      ensures PassedOn(m, vs[i], vs[i + 1], c)
    {
      if i > 0 {
        assert PassedOn(m, us[i - 1], us[i], c);
      }
    }
  }

  /** A batch of n is n passes, unless the simulation stops during one of them. */
  lemma {:induction false} BatchPasses(m: Model, s: State, c: BlockId, n: nat) returns (us: seq<State>)
    requires Linked(m) && Fits(m, s) && c < |m.blocks| && m.blocks[c].Create?
    ensures Batch(m, us, c) && us[0] == s
    ensures !Generate(m, s, c, n).0.stop ==> |us| == n + 1 && Generate(m, s, c, n).0 == us[n]
    decreases n
  {
    hide GenerateOne, Fits, Linked;
    us := [s];
    if n > 0 {
      var one := GenerateOne(m, s, c);
      BodyIsPass(m, s, c);
      if one.1.None? {
        var rest := BatchPasses(m, one.0, c, n - 1);
        BatchGrows(m, s, rest, c);
        us := [s] + rest;
      }
    }
  }

  lemma BodyIsPass(m: Model, s: State, c: BlockId)
    requires Linked(m) && Fits(m, s) && c < |m.blocks| && m.blocks[c].Create?
    ensures BatchBody(m, c)(s) == GenerateOne(m, s, c)
  {
  }

  /** An arrival makes as many entities as the batch expression says and then, unless the simulation
      stopped, schedules the next arrival of the same CREATE after its interval. */
  lemma ArrivalMakesBatch(m: Model, s: State, c: BlockId) returns (us: seq<State>)
    requires Linked(m) && Fits(m, s) && c < |m.blocks| && m.blocks[c].Create?
    ensures Batch(m, us, c) && us[0] == s.(rng := m.blocks[c].batch(Look(s)).1)
    ensures var s' := HandleArrival(m, s, c);
            !s'.stop ==>
              && |us| == m.blocks[c].batch(Look(s)).0 + 1
              && var u := us[|us| - 1];
                 var (interval, rng) := m.blocks[c].interval(Look(u));
                 s' == u.(rng := rng, pending := u.pending + [Event(u.clock + interval, Run(Arrival(c)))])
  {
    var (n, rng) := m.blocks[c].batch(Look(s));
    PlainFits(m, s, s.(rng := rng));
    hide Look, Generate, Fits, Linked, Batch;
    us := BatchPasses(m, s.(rng := rng), c, n);
  }

  // ---------- startup ----------

  /** The startup of block b leads from s to t: an immediate CREATE is handled as an arrival, any other
      CREATE waits for its first one, and the other blocks do nothing. */
  ghost predicate Started(m: Model, s: State, t: State, b: BlockId) {
    && Linked(m) && Fits(m, s) && b < |m.blocks|
    && t == if !m.blocks[b].Create? then s
            else if m.blocks[b].immediately then HandleArrival(m, s, b)
            else
              var (interval, rng) := m.blocks[b].interval(Look(s));
              s.(rng := rng, pending := s.pending + [Event(s.clock + interval, Run(Arrival(b)))])
  }

  ghost predicate StartedAll(m: Model, us: seq<State>, b: nat) {
    && b <= |m.blocks| && |us| == |m.blocks| - b + 1
    && forall i: nat :: i + b < |m.blocks| ==> Started(m, us[i], us[i + 1], b + i)
  }

  lemma StartedFirst(m: Model, s: State, us: seq<State>, b: nat)
    requires b < |m.blocks| && StartedAll(m, us, b + 1) && Started(m, s, us[0], b)
    ensures StartedAll(m, [s] + us, b)
  {
    hide Started;
    var vs := [s] + us;
    forall i: nat | i + b < |m.blocks|
      ensures Started(m, vs[i], vs[i + 1], b + i)
    {
      if i > 0 {
        assert Started(m, us[i - 1], us[i], b + 1 + (i - 1));
      }
    }
  }

  /** The blocks are started in the order of their declaration, each once, stopped or not. */
  lemma {:induction false} StartsInOrder(m: Model, s: State, b: nat) returns (us: seq<State>)
    requires Linked(m) && Fits(m, s) && b <= |m.blocks|
    ensures StartedAll(m, us, b) && us[0] == s && us[|m.blocks| - b] == StartFrom(m, s, b)
    decreases |m.blocks| - b
  {
    hide Linked, Fits, HandleArrival, Look;
    if b == |m.blocks| {
      us := [s];
    } else {
      var t := if !m.blocks[b].Create? then s
               else if m.blocks[b].immediately then HandleArrival(m, s, b) else ScheduleArrival(m, s, b);
      var rest := StartsInOrder(m, t, b + 1);
      us := [s] + rest;
      StartedFirst(m, s, rest, b);
    }
  }

  // ---------- the stop rule ----------

  /** The rule of the model, if it has one, holds in s. */
  predicate RuleHolds(m: Model, s: State) {
    m.stopRule.Some? && m.stopRule.value(Look(s))
  }

  /** After a turn the simulation is stopped exactly if the handler stopped it or the rule holds then. */
  lemma RuleEndsTurn(m: Model, s: State, i: nat) returns (u: State)
    requires Linked(m) && Fits(m, s) && i < |s.pending| && EventFits(m, s, s.pending[i])
    ensures var e := s.pending[i];
            var t := s.(clock := e.time, pending := s.pending[..i] + s.pending[i + 1..]);
            && Fits(m, t) && ActionFits(m, t, e.handler.action)
            && u == Handle(m, t, e.handler.action)
            && Step(m, s, i) == if u.stop || !RuleHolds(m, u) then u else u.(stop := true, reason := StopRuleMet)
  {
    hide Handle, Look, Fits;
    assert Take(m, s, i) == s.(clock := s.pending[i].time, pending := s.pending[..i] + s.pending[i + 1..]);
    TakenFits(m, s, i);
    u := Handle(m, Take(m, s, i), s.pending[i].handler.action);
  }

  lemma TakenFits(m: Model, s: State, i: nat)
    requires Fits(m, s) && i < |s.pending| && EventFits(m, s, s.pending[i])
    ensures Fits(m, Take(m, s, i)) && ActionFits(m, Take(m, s, i), s.pending[i].handler.action)
  {
  }

  lemma RuleIgnoresStop(m: Model, s: State, why: StopReason)
    ensures RuleHolds(m, s.(stop := true, reason := why)) == RuleHolds(m, s)
  {
    assert Look(s.(stop := true, reason := why)) == Look(s);
  }

  lemma UnstoppedBefore(m: Model, run: seq<State>, k: nat)
    requires IsRun(m, run) && k + 1 < |run|
    ensures !run[k].stop
  {
    assert TurnAt(m, run, k);
  }

  /** The simulation goes on only while its stop rule does not hold: after a turn a boundary that is not
      the last one does not meet it. */
  lemma RuleEndsRun(m: Model, run: seq<State>, k: nat)
    requires IsRun(m, run) && 0 < k < |run| && RuleHolds(m, run[k])
    ensures run[k].stop && k == |run| - 1
  {
    if k + 1 < |run| {
      UnstoppedBefore(m, run, k);
    }
    PrefixesAreRuns(m, run, k);
    var i := LastTurn(m, run[..k + 1]);
    var u := RuleEndsTurn(m, run[k - 1], i);
    RuleIgnoresStop(m, u, StopRuleMet);
  }
}
