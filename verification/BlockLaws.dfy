/** What single block functions and event handlers do, said of counters, places and events of the
    state alone, up to the state in which the entity is handed on. */
module BlockLaws {
  import opened Options
  import opened EventQueues
  import opened SimModel
  import opened Semantics
  import opened Potentials
  import opened Assignments

  // ---------- capacity and guards ----------

  /** What the capacity expression says in s, and where it leaves the random stream. */
  predicate HasRoom(s: State, capacity: Option<GlobalExpr<nat>>, used: nat) {
    capacity.Some? ==> used < capacity.value(Look(s)).0
  }

  function AfterCapacity(s: State, capacity: Option<GlobalExpr<nat>>): nat {
    if capacity.Some? then capacity.value(Look(s)).1 else s.rng
  }

  /** The expression reads no fields, or those of the entity at hand. */
  predicate IsFor<T>(expr: Expr<T>, ref: EntityRef) {
    expr.entity == None || expr.entity == Some(ref.typ)
  }

  function Larger(a: nat, b: nat): (c: nat)
    ensures c >= a && c >= b && (c == a || c == b)
  {
    if a < b then b else a
  }

  // ---------- DELAY ----------

  /** The entity occupies a place of DELAY b until an event that is due after the duration. */
  ghost predicate Served(m: Model, s: State, t: State, b: BlockId, ref: EntityRef)
    requires b < |m.blocks| && m.blocks[b].Delay?
  {
    b < |s.blocks| &&
    var d, x := m.blocks[b], s.blocks[b];
    var u := s.(rng := AfterCapacity(s, d.capacity));
    var (duration, rng) := d.duration.eval(Look(u), ref);
    t == s.(rng := rng,
            blocks := s.blocks[b := x.(enterN := x.enterN + 1, busy := x.busy + 1,
                                       maxBusy := Larger(x.maxBusy, x.busy + 1))],
            pending := s.pending + [Event(s.clock + duration, Run(Completion(b, ref)))])
  }

  /** A DELAY takes an entity exactly if it has room and its duration is for that entity; a full
      DELAY refuses, a duration for another entity type stops the simulation. */
  lemma DelayServes(m: Model, s: State, b: BlockId, ref: EntityRef)
    requires Ready(m, s, b, ref) && m.blocks[b].Delay?
    ensures var d, r := m.blocks[b], EnterDelay(m, s, b, ref);
            var room := HasRoom(s, d.capacity, s.blocks[b].busy);
            && (r.ok <==> room && IsFor(d.duration, ref))
            && (r.ok ==> Served(m, s, r.st, b, ref))
            && (!r.ok ==> r.st == s.(rng := AfterCapacity(s, d.capacity), stop := r.st.stop, reason := r.st.reason))
            && (!r.ok && !room ==> r.st.stop == s.stop && r.st.reason == s.reason)
            && (!r.ok && room ==> r.st.stop && r.st.reason == WrongEntityForDuration(b))
  {
    hide Look;
    var u := s.(rng := AfterCapacity(s, m.blocks[b].capacity));
    assert m.blocks[b].capacity.None? ==> u == s;
  }

  // ---------- QUEUE ----------

  /** The state in which a QUEUE with room decides on an entity: it has counted the entry. */
  function Counted(m: Model, s: State, b: BlockId): State
    requires b < |m.blocks| && m.blocks[b].Queue? && b < |s.blocks|
  {
    s.(rng := AfterCapacity(s, m.blocks[b].capacity),
       blocks := s.blocks[b := s.blocks[b].(enterN := s.blocks[b].enterN + 1)])
  }

  /** The entity waits last in QUEUE b with the next ticket; if the queue has a timeout, one event
      that will expire this ticket is due after the delay that the timeout expression gives it. */
  ghost predicate Joined(m: Model, s: State, t: State, b: BlockId, ref: EntityRef)
    requires b < |m.blocks| && m.blocks[b].Queue?
  {
    b < |s.blocks| &&
    var u, x, timeout := Counted(m, s, b), s.blocks[b], m.blocks[b].timeout;
    var waiting := x.waiting + [Waiting(x.total, ref)];
    && t.blocks == s.blocks[b := x.(enterN := x.enterN + 1, waiting := waiting, total := x.total + 1,
                                    maxLen := Larger(x.maxLen, |waiting|))]
    && t == u.(rng := t.rng, blocks := t.blocks, pending := t.pending)
    && if timeout.None? then t.rng == u.rng && t.pending == s.pending
       else
         var (delay, rng) := timeout.value.delay.eval(Look(u), ref);
         t.rng == rng && t.pending == s.pending + [Event(s.clock + delay, Run(Timeout(b, x.total)))]
  }

  predicate TimeoutIsFor(m: Model, b: BlockId, ref: EntityRef)
    requires b < |m.blocks| && m.blocks[b].Queue?
  {
    m.blocks[b].timeout.Some? ==> IsFor(m.blocks[b].timeout.value.delay, ref)
  }

  lemma AdmitJoins(m: Model, s: State, b: BlockId, ref: EntityRef)
    requires Ready(m, s, b, ref) && m.blocks[b].Queue? && Fits(m, Counted(m, s, b)) && ValidRef(Counted(m, s, b), ref)
    ensures var r := Admit(m, Counted(m, s, b), b, ref);
            && (r.ok <==> TimeoutIsFor(m, b, ref))
            && (r.ok ==> Joined(m, s, r.st, b, ref))
            && (!r.ok ==> r.st == Counted(m, s, b).(stop := true, reason := WrongEntityForTimeout(b)))
  {
    hide Look, Fits;
    HasBlocks(m, s);
    var x := s.blocks[b];
    var y := x.(enterN := x.enterN + 1, waiting := x.waiting + [Waiting(x.total, ref)], total := x.total + 1,
                maxLen := Larger(x.maxLen, |x.waiting| + 1));
    assert Counted(m, s, b).blocks[b := y] == s.blocks[b := y];
  }

  /** A QUEUE with room lets the entity join and then offers its head to the next block; the answer
      does not depend on whether that was taken. */
  lemma QueueWithRoom(m: Model, s: State, b: BlockId, ref: EntityRef) returns (t: State)
    requires Ready(m, s, b, ref) && m.blocks[b].Queue? && HasRoom(s, m.blocks[b].capacity, |s.blocks[b].waiting|)
    ensures var r := EnterQueue(m, s, b, ref);
            && (r.ok <==> TimeoutIsFor(m, b, ref))
            && (r.ok ==> Joined(m, s, t, b, ref) && Fits(m, t) && r.st == TryAdvance(m, t, b).st)
            && (!r.ok ==> r.st == Counted(m, s, b).(stop := true, reason := WrongEntityForTimeout(b)))
  {
    hide Look, TryAdvance, Enter, Joined;
    var s0 := s.(rng := AfterCapacity(s, m.blocks[b].capacity));
    assert m.blocks[b].capacity.None? ==> s0 == s;
    PlainFits(m, s, s0);
    CountFits(m, s0, b);
    assert Counted(m, s, b) == CountEnter(s0, b);
    AdmitJoins(m, s, b, ref);
    t := Admit(m, Counted(m, s, b), b, ref).st;
  }

  /** A full QUEUE refuses, or counts the entity as dropped and hands it to its overflow block. */
  lemma QueueWithoutRoom(m: Model, s: State, b: BlockId, ref: EntityRef)
    requires Ready(m, s, b, ref) && m.blocks[b].Queue? && !HasRoom(s, m.blocks[b].capacity, |s.blocks[b].waiting|)
    ensures var r, overflow := EnterQueue(m, s, b, ref), m.blocks[b].overflow;
            if overflow.None? then r == Outcome(s.(rng := AfterCapacity(s, m.blocks[b].capacity)), false)
            else
              var u, x := Counted(m, s, b), s.blocks[b];
              var dropped := u.(blocks := s.blocks[b := x.(enterN := x.enterN + 1, dropN := x.dropN + 1)]);
              Ready(m, dropped, overflow.value, ref) && r == Enter(m, dropped, overflow.value, ref)
  {
    hide Look, Enter, Fits, CountDrop, CountEnter;
    var s0 := s.(rng := AfterCapacity(s, m.blocks[b].capacity));
    PlainFits(m, s, s0);
    CountFits(m, s0, b);
    CountFits(m, CountEnter(s0, b), b);
    DropIsCounted(s0, b);
    if m.blocks[b].overflow.Some? {
      Reach(m, CountDrop(CountEnter(s0, b), b), m.blocks[b].overflow.value, ref);
    }
  }

  lemma DropIsCounted(s: State, b: BlockId)
    requires b < |s.blocks|
    ensures |CountEnter(s, b).blocks| == |s.blocks|
    ensures var x := s.blocks[b];
            CountDrop(CountEnter(s, b), b) ==
              s.(blocks := s.blocks[b := x.(enterN := x.enterN + 1, dropN := x.dropN + 1)])
  {
    var x := s.blocks[b];
    var y := x.(enterN := x.enterN + 1, dropN := x.dropN + 1);
    assert s.blocks[b := x.(enterN := x.enterN + 1)][b := y] == s.blocks[b := y];
  }

  /** The head of a QUEUE is offered to the next block; once taken it leaves and is counted. */
  lemma HeadIsOffered(m: Model, s: State, b: BlockId)
    requires Linked(m) && Fits(m, s) && IsQueue(m, b)
    ensures var r, ws, next := TryAdvance(m, s, b), s.blocks[b].waiting, m.blocks[b].next;
            if ws == [] then r == Outcome(s, false)
            else
              && Ready(m, s, next, ws[0].ref)
              && var taken := Enter(m, s, next, ws[0].ref);
                 && r.ok == taken.ok && b < |taken.st.blocks|
                 && var x := taken.st.blocks[b];
                    r.st == if !taken.ok then taken.st
                            else taken.st.(blocks := taken.st.blocks[b := x.(waiting := ws[1..], exitN := x.exitN + 1)])
  {
    if s.blocks[b].waiting != [] {
      assert BlockLinked(m, b) && QueueFits(s, s.blocks[b].waiting);
      Reach(m, s, m.blocks[b].next, s.blocks[b].waiting[0].ref);
      HeadStaysDuringOffer(m, s, b);
      hide Enter, Linked;
    }
  }

  // ---------- waking queues ----------

  /** Queue q was tried in s and did not advance, which led to t. */
  ghost predicate TriedInVain(m: Model, s: State, t: State, q: BlockId) {
    Linked(m) && Fits(m, s) && IsQueue(m, q) && !TryAdvance(m, s, q).ok && t == TryAdvance(m, s, q).st
  }

  /** The queues before the i-th were tried in turn and none of them advanced. */
  ghost predicate TriedBefore(m: Model, s: State, qs: seq<BlockId>, us: seq<State>, i: nat) {
    && i <= |qs| && |us| == i + 1 && us[0] == s
    && forall j: nat :: j < i ==> TriedInVain(m, us[j], us[j + 1], qs[j])
  }

  lemma OneMoreTried(m: Model, s: State, u: State, qs: seq<BlockId>, us: seq<State>, i: nat)
    requires qs != [] && TriedInVain(m, s, u, qs[0]) && TriedBefore(m, u, qs[1..], us, i)
    ensures TriedBefore(m, s, qs, [s] + us, i + 1)
  {
    hide TriedInVain;
    var vs := [s] + us;
    forall j: nat | j < i + 1
      ensures TriedInVain(m, vs[j], vs[j + 1], qs[j])
    {
      if j > 0 {
        assert TriedInVain(m, us[j - 1], us[j], qs[1..][j - 1]);
      }
    }
  }

  /** Wait queues are tried in order up to the first that advances: it is the last one tried. */
  lemma {:induction false} WakesInOrder(m: Model, s: State, qs: seq<BlockId>, bound: nat)
    returns (i: nat, us: seq<State>)
    requires Linked(m) && Fits(m, s) && forall q <- qs :: IsQueue(m, q) && m.rank[q] < bound
    ensures TriedBefore(m, s, qs, us, i) && Fits(m, us[i])
    ensures if i == |qs| then Wake(m, s, qs, bound) == us[i]
            else
              && IsQueue(m, qs[i])
              && TryAdvance(m, us[i], qs[i]).ok && Wake(m, s, qs, bound) == TryAdvance(m, us[i], qs[i]).st
    decreases |qs|
  {
    if qs == [] {
      i, us := 0, [s];
    } else {
      assert qs[0] in qs;
      var r := TryAdvance(m, s, qs[0]);
      if r.ok {
        i, us := 0, [s];
      } else {
        assert forall q <- qs[1..] :: q in qs;
        var j, vs := WakesInOrder(m, r.st, qs[1..], bound);
        OneMoreTried(m, s, r.st, qs, vs, j);
        i, us := j + 1, [s] + vs;
      }
    }
  }

  lemma WakeListHead(m: Model, b: BlockId, ys: seq<BlockId>)
    ensures WakeList(m, [b] + ys) ==
              (if b < |m.blocks| && m.blocks[b].Seize? then m.blocks[b].waitQueues else []) + WakeList(m, ys)
  {
    assert ([b] + ys)[1..] == ys;
  }

  lemma WakeListNone(m: Model)
    ensures WakeList(m, []) == []
  {
  }

  /** A RELEASE wakes the wait queues of the SEIZE blocks of its resource, block by block in their order. */
  lemma {:induction false} WakeListInOrder(m: Model, xs: seq<BlockId>, b: BlockId, ys: seq<BlockId>)
    requires b < |m.blocks| && m.blocks[b].Seize?
    ensures WakeList(m, xs + [b] + ys) == WakeList(m, xs) + m.blocks[b].waitQueues + WakeList(m, ys)
    decreases |xs|
  {
    hide WakeList;
    if xs == [] {
      assert xs + [b] + ys == [b] + ys;
      WakeListHead(m, b, ys);
      WakeListNone(m);
    } else {
      WakeListInOrder(m, xs[1..], b, ys);
      assert xs + [b] + ys == [xs[0]] + (xs[1..] + [b] + ys) && xs == [xs[0]] + xs[1..];
      WakeListHead(m, xs[0], xs[1..] + [b] + ys);
      WakeListHead(m, xs[0], xs[1..]);
    }
  }

  // ---------- SEIZE and RELEASE ----------

  /** u is t after block b let an entity pass and resource k counted a unit seized. */
  predicate SeizeCounted(t: State, u: State, b: BlockId, k: nat) {
    && k < |t.res| && PassedThrough(t, u.(res := t.res), b)
    && u.res == t.res[k := t.res[k].(seizeN := t.res[k].seizeN + 1)]
  }

  predicate ReleaseCounted(t: State, u: State, b: BlockId, k: nat) {
    && k < |t.res| && PassedThrough(t, u.(res := t.res), b)
    && u.res == t.res[k := t.res[k].(releaseN := t.res[k].releaseN + 1)]
  }

  lemma UnitsCounted(t: State, b: BlockId, k: nat)
    requires b < |t.blocks| && k < |t.res|
    ensures SeizeCounted(t, CountSeize(t, b, k), b, k) && ReleaseCounted(t, CountRelease(t, b, k), b, k)
  {
  }

  /** One unit more of resource k is held. */
  function Holding(s: State, k: nat): State
    requires k < |s.res|
  {
    var x := s.res[k];
    s.(res := s.res[k := x.(busy := x.busy + 1, maxBusy := Larger(x.maxBusy, x.busy + 1))])
  }

  lemma GrabHolds(s: State, k: nat)
    requires k < |s.res|
    ensures GrabUnit(s, k) == Holding(s, k)
  {
  }

  lemma Sized(m: Model, s: State)
    requires Fits(m, s)
    ensures |s.blocks| == |m.blocks| && |s.res| == |m.resources|
  {
  }

  /** A SEIZE refuses without a free unit; else it holds one while the next block decides, and if the
      entity is taken the unit stays held and both the block and the resource count it. */
  lemma SeizeHolds(m: Model, s: State, b: BlockId, ref: EntityRef)
    requires Ready(m, s, b, ref) && m.blocks[b].Seize?
    ensures var k, next, r := m.blocks[b].resource, m.blocks[b].next, EnterSeize(m, s, b, ref);
            k < |s.res| &&
            if s.res[k].busy >= s.res[k].capacity then r == Outcome(s, false)
            else
              && Ready(m, Holding(s, k), next, ref)
              && var taken := Enter(m, Holding(s, k), next, ref);
                 r.ok == taken.ok && (taken.ok ==> SeizeCounted(taken.st, r.st, b, k))
  {
    hide Enter, Linked, Fits, GrabUnit, CountSeize, SeizeCounted, Holding;
    var k, next := m.blocks[b].resource, m.blocks[b].next;
    Sized(m, s);
    if s.res[k].busy < s.res[k].capacity {
      UnitFits(m, s, b, k);
      Reach(m, GrabUnit(s, k), next, ref);
      GrabHolds(s, k);
      Sized(m, Enter(m, GrabUnit(s, k), next, ref).st);
      UnitsCounted(Enter(m, GrabUnit(s, k), next, ref).st, b, k);
    }
  }

  /** A RELEASE gives its unit back before the next block decides; if the entity is taken it is counted
      and the queues waiting for the resource are woken. A RELEASE of an idle resource stops. */
  lemma ReleaseFrees(m: Model, s: State, b: BlockId, ref: EntityRef) returns (t: State)
    requires Ready(m, s, b, ref) && m.blocks[b].Release?
    ensures var k, next, r := m.blocks[b].resource, m.blocks[b].next, EnterRelease(m, s, b, ref);
            k < |s.res| && k < |m.resources| &&
            var x, woken := s.res[k], WakeList(m, m.resources[k].seizes);
            if x.busy == 0 then r == Outcome(s.(stop := true, reason := ReleaseOfIdleResource(b)), false)
            else
              var u := s.(res := s.res[k := x.(busy := x.busy - 1)]);
              && Ready(m, u, next, ref)
              && var taken := Enter(m, u, next, ref);
                 && r.ok == taken.ok
                 && (taken.ok ==>
                      && ReleaseCounted(taken.st, t, b, k) && Linked(m) && Fits(m, t)
                      && (forall q <- woken :: IsQueue(m, q) && m.rank[q] < m.rank[b])
                      && r.st == Wake(m, t, woken, m.rank[b]))
  {
    hide Enter, Wake, Fits, CountRelease, ReleaseCounted;
    var k, next := m.blocks[b].resource, m.blocks[b].next;
    t := s;
    Sized(m, s);
    if s.res[k].busy > 0 {
      UnitFits(m, s, b, k);
      Reach(m, DropUnit(s, k), next, ref);
      var taken := Enter(m, DropUnit(s, k), next, ref).st;
      Sized(m, taken);
      UnitFits(m, taken, b, k);
      UnitsCounted(taken, b, k);
      t := CountRelease(taken, b, k);
    }
  }

  // ---------- TERMINATE ----------

  /** t is s without the entity ref: its slot is cleared and goes last on the free list. */
  predicate Freed(m: Model, s: State, t: State, ref: EntityRef) {
    && 1 <= ref.typ <= |s.pools| && ref.typ <= |m.entities| && ref.idx < |s.pools[ref.typ - 1].entities|
    && var p := s.pools[ref.typ - 1];
       t == s.(pools := s.pools[ref.typ - 1 :=
                  PoolState(p.entities[ref.idx := m.entities[ref.typ - 1].zero], p.free + [ref.idx])])
  }

  lemma TerminateFrees(m: Model, s: State, b: BlockId, ref: EntityRef)
    requires Ready(m, s, b, ref) && m.blocks[b].Terminate?
    ensures var r := EnterTerminate(m, s, b, ref);
            && r.ok && b < |s.blocks|
            && Freed(m, s.(blocks := s.blocks[b := s.blocks[b].(enterN := s.blocks[b].enterN + 1)]), r.st, ref)
  {
  }
}
