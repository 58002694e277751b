/** A DELAY does not idle while its queue waits. It holds whenever the wait queues that are woken
    before the queue in question lead to this DELAY and to nothing else. */
module WorkConservation {
  import opened SimModel
  import opened Semantics
  import opened Transactions
  import opened Steps
  import opened Runs
  import opened Limits

  /** DELAY d has the constant capacity c, and QUEUE q feeds it directly and is on its wake list. */
  ghost predicate Serves(m: Model, d: BlockId, c: nat, q: BlockId) {
    && d < |m.blocks| && m.blocks[d].Delay?
    && m.blocks[d].capacity.Some? && Constant(m.blocks[d].capacity.value, c)
    && IsQueue(m, q) && m.blocks[q].next == d && q in m.blocks[d].waitQueues
  }

  ghost predicate Constant(expr: GlobalExpr<nat>, c: nat) {
    forall v {:trigger expr(v)} :: expr(v).0 == c
  }

  ghost function Working(d: BlockId, c: nat, q: BlockId): State -> bool {
    (s: State) => s.stop || (d < |s.blocks| && q < |s.blocks| && s.blocks[d].busy <= c
      && (s.blocks[q].waiting != [] ==> s.blocks[d].busy == c))
  }

  // ---------- single steps ----------

  lemma WorkingQuiet(m: Model, d: BlockId, c: nat, q: BlockId)
    requires Serves(m, d, c, q)
    ensures Composes(Keeping(Working(d, c, q))) && QuietSteps(m, Keeping(Working(d, c, q)))
  {
    var rel := Keeping(Working(d, c, q));
    forall s, s' | Fits(m, s) && RolledBack(m, s, s')
      ensures rel(s, s')
    {
      assert SameBlock(m.blocks[q], s.blocks[q], s'.blocks[q]);
      assert SameBlock(m.blocks[d], s.blocks[d], s'.blocks[d]);
    }
  }

  lemma WorkingHolds(m: Model, d: BlockId, c: nat, q: BlockId)
    requires Serves(m, d, c, q)
    ensures HoldSteps(m, Keeping(Working(d, c, q)))
  {
  }

  lemma ServiceWithinCapacity(m: Model, s: State, b: BlockId, ref: EntityRef, d: BlockId, c: nat, q: BlockId)
    requires Serves(m, d, c, q) && Ready(m, s, b, ref) && m.blocks[b].Delay? && EnterDelay(m, s, b, ref).ok
             && Working(d, c, q)(s)
    ensures Working(d, c, q)(EnterDelay(m, s, b, ref).st)
  {
  }

  lemma WorkingPlaces(m: Model, d: BlockId, c: nat, q: BlockId)
    requires Serves(m, d, c, q)
    ensures PlaceSteps(m, Keeping(Working(d, c, q)))
  {
    forall s, b: nat, ref | Ready(m, s, b, ref) && m.blocks[b].Delay? && EnterDelay(m, s, b, ref).ok
      && Working(d, c, q)(s)
      ensures Working(d, c, q)(EnterDelay(m, s, b, ref).st)
    {
      ServiceWithinCapacity(m, s, b, ref, d, c, q);
    }
  }

  /** The head of q is refused only if d is full or the simulation stops. */
  lemma {:induction false} OfferToServer(m: Model, s: State, d: BlockId, c: nat, q: BlockId)
    requires Linked(m) && Fits(m, s) && Serves(m, d, c, q) && s.blocks[q].waiting != []
    ensures var r := TryAdvance(m, s, q);
            || r.st.stop
            || (r.ok && s.blocks[d].busy < c && r.st.blocks[d].busy == s.blocks[d].busy + 1
                 && r.st.blocks[q].waiting == s.blocks[q].waiting[1..])
            || (!r.ok && s.blocks[d].busy >= c && r.st.blocks == s.blocks)
  {
    var ws := s.blocks[q].waiting;
    assert BlockLinked(m, q) && QueueFits(s, ws);
    Reach(m, s, d, ws[0].ref);
  }

  lemma AdmissionGrowsQueue(m: Model, s: State, b: BlockId, ref: EntityRef)
    requires Ready(m, s, b, ref) && IsQueue(m, b) && Ready(m, CountEnter(s, b), b, ref)
             && Admit(m, CountEnter(s, b), b, ref).ok
    ensures var s' := Admit(m, CountEnter(s, b), b, ref).st;
            && s'.stop == s.stop
            && |s'.blocks| == |s.blocks| && (forall a: nat :: a < |s.blocks| && a != b ==> s'.blocks[a] == s.blocks[a])
            && s'.blocks[b].busy == s.blocks[b].busy && |s'.blocks[b].waiting| == |s.blocks[b].waiting| + 1
  {
  }

  lemma {:induction false} AdmissionKeepsWorking(m: Model, s: State, b: BlockId, ref: EntityRef, d: BlockId, c: nat,
                                                 q: BlockId)
    requires Serves(m, d, c, q) && Working(d, c, q)(s)
    requires Ready(m, s, b, ref) && IsQueue(m, b) && Ready(m, CountEnter(s, b), b, ref)
             && Admit(m, CountEnter(s, b), b, ref).ok
    ensures var s' := Admit(m, CountEnter(s, b), b, ref).st;
            if b == q then Working(d, c, q)(TryAdvance(m, s', b).st) else Working(d, c, q)(s')
  {
    AdmissionGrowsQueue(m, s, b, ref);
    if b == q {
      OfferToServer(m, Admit(m, CountEnter(s, b), b, ref).st, d, c, q);
    }
  }

  lemma WorkingQueues(m: Model, d: BlockId, c: nat, q: BlockId)
    requires Serves(m, d, c, q)
    ensures QueueSteps(m, Keeping(Working(d, c, q)))
  {
    var rel := Keeping(Working(d, c, q));
    forall s, b: nat, ref | Ready(m, s, b, ref) && IsQueue(m, b) && Ready(m, CountEnter(s, b), b, ref)
                            && Admit(m, CountEnter(s, b), b, ref).ok && Working(d, c, q)(s)
      ensures var r := Admit(m, CountEnter(s, b), b, ref);
              rel(r.st, TryAdvance(m, r.st, b).st) ==> Working(d, c, q)(TryAdvance(m, r.st, b).st)
    {
      AdmissionKeepsWorking(m, s, b, ref, d, c, q);
    }
  }

  lemma WorkingIsClosed(m: Model, d: BlockId, c: nat, q: BlockId)
    requires Serves(m, d, c, q)
    ensures Closed(m, Keeping(Working(d, c, q)))
  {
    WorkingQuiet(m, d, c, q);
    WorkingHolds(m, d, c, q);
    WorkingPlaces(m, d, c, q);
    WorkingQueues(m, d, c, q);
  }

  lemma DiscardKeepsBlocks(m: Model, s: State, c: BlockId, ref: EntityRef)
    requires Fits(m, s) && c < |m.blocks| && m.blocks[c].Create? && ValidRef(s, ref) && Fits(m, CountDrop(s, c))
    ensures FreeEntity(m, CountDrop(s, c), ref).blocks == CountDrop(s, c).blocks
    ensures s.stop ==> FreeEntity(m, CountDrop(s, c), ref).stop
  {
  }

  lemma SpawnKeepsWorking(m: Model, s: State, b: BlockId, d: BlockId, c: nat, q: BlockId)
    requires Linked(m) && Fits(m, s) && b < |m.blocks| && m.blocks[b].Create? && Working(d, c, q)(s)
    ensures Working(d, c, q)(Spawn(m, s, b).0)
  {
  }

  lemma WorkingCreates(m: Model, d: BlockId, c: nat, q: BlockId)
    requires Serves(m, d, c, q)
    ensures CreateSteps(m, Keeping(Working(d, c, q)))
  {
    var rel := Keeping(Working(d, c, q));
    forall s, b: nat | Linked(m) && Fits(m, s) && b < |m.blocks| && m.blocks[b].Create? && Working(d, c, q)(s)
      ensures Working(d, c, q)(Spawn(m, s, b).0)
    {
      SpawnKeepsWorking(m, s, b, d, c, q);
    }
    forall s, b: nat, ref | Fits(m, s) && b < |m.blocks| && m.blocks[b].Create? && ValidRef(s, ref)
      && Fits(m, CountDrop(s, b))
      ensures rel(s, FreeEntity(m, CountDrop(s, b), ref))
    {
      DiscardKeepsBlocks(m, s, b, ref);
    }
  }

  lemma WorkingArrivals(m: Model, d: BlockId, c: nat, q: BlockId, b: BlockId)
    requires Serves(m, d, c, q)
    ensures ArrivalSteps(m, Keeping(Working(d, c, q)), b)
  {
  }

  lemma WorkingEvents(m: Model, d: BlockId, c: nat, q: BlockId, b: BlockId)
    requires Serves(m, d, c, q)
    ensures ExpirySteps(m, Keeping(Working(d, c, q)))
    ensures b != d ==> LeaveSteps(m, Keeping(Working(d, c, q)), b)
  {
  }

  // ---------- queues that lead to one DELAY only ----------

  /** Every way from block b through ASSIGN and BRANCH ends at d. */
  ghost predicate OnlyTo(m: Model, b: BlockId, d: BlockId)
    requires Linked(m) && b < |m.blocks|
    decreases m.rank[b]
  {
    assert BlockLinked(m, b);
    || b == d
    || (m.blocks[b].Assign? && OnlyTo(m, m.blocks[b].next, d))
    || (m.blocks[b].Branch?
        && (forall c <- m.blocks[b].cases :: OnlyTo(m, c.next, d))
        && (m.blocks[b].orElse.Some? ==> OnlyTo(m, m.blocks[b].orElse.value, d)))
  }

  /** An entity that gets through such a path occupies the DELAY and disturbs no queue. */
  lemma {:induction false} OnlyToOccupies(m: Model, s: State, b: BlockId, ref: EntityRef, d: BlockId)
    requires Ready(m, s, b, ref) && OnlyTo(m, b, d) && d < |m.blocks| && m.blocks[d].Delay? && Enter(m, s, b, ref).ok
    ensures var s' := Enter(m, s, b, ref).st; s'.blocks[d].busy == s.blocks[d].busy + 1
    decreases m.rank[b]
  {
    match m.blocks[b]
    case Assign(xs, next) =>
      var (s1, log) := RunAssignments(m, s, xs, ref);
      AssignmentsTouchStoreOnly(m, s, xs, ref);
      Reach(m, s1, next, ref);
      OnlyToOccupies(m, s1, next, ref, d);
    case Branch(cases, orElse) =>
      var (s1, chosen) := Choose(m, s, b, ref);
      PlainFits(m, s, s1);
      Reach(m, s1, chosen.value, ref);
      OnlyToOccupies(m, s1, chosen.value, ref, d);
    case _ =>
  }

  ghost predicate FeedsOnly(m: Model, p: BlockId, d: BlockId)
    requires Linked(m)
  {
    IsQueue(m, p) && m.blocks[p].next < |m.blocks| && OnlyTo(m, m.blocks[p].next, d)
  }

  /** q is woken by d, and every queue that is woken before it leads to d only. */
  ghost predicate WokenInTurn(m: Model, qs: seq<BlockId>, q: BlockId, d: BlockId)
    requires Linked(m)
  {
    exists j: nat :: j < |qs| && qs[j] == q && forall i: nat {:trigger qs[i]} :: i < j ==> FeedsOnly(m, qs[i], d)
  }

  /** A unit of d has just become free; waking fills it again unless q is empty. */
  lemma {:induction false} WakingRefills(m: Model, s: State, qs: seq<BlockId>, bound: nat, d: BlockId, c: nat,
                                         q: BlockId)
    requires Linked(m) && Fits(m, s) && Serves(m, d, c, q) && s.blocks[d].busy + 1 == c
    requires forall p <- qs :: IsQueue(m, p) && m.rank[p] < bound
    requires WokenInTurn(m, qs, q, d)
    ensures Working(d, c, q)(Wake(m, s, qs, bound))
    decreases |qs|
  {
    var j: nat :| j < |qs| && qs[j] == q && forall i: nat {:trigger qs[i]} :: i < j ==> FeedsOnly(m, qs[i], d);
    assert qs[0] in qs;
    var r := TryAdvance(m, s, qs[0]);
    if qs[0] == q {
      FirstInTurn(m, s, qs, bound, d, c, q);
    } else if r.ok {
      EarlierInTurn(m, s, qs[0], d);
    } else {
      RefusedAdvanceLeavesNoTrace(m, s, qs[0]);
      assert SameBlock(m.blocks[d], s.blocks[d], r.st.blocks[d]);
      assert qs[1..][j - 1] == q;
      assert forall i: nat {:trigger qs[1..][i]} :: i < j - 1 ==> qs[1..][i] == qs[i + 1];
      WakingRefills(m, r.st, qs[1..], bound, d, c, q);
    }
  }

  lemma {:induction false} FirstInTurn(m: Model, s: State, qs: seq<BlockId>, bound: nat, d: BlockId, c: nat, q: BlockId)
    requires Linked(m) && Fits(m, s) && Serves(m, d, c, q) && s.blocks[d].busy + 1 == c
    requires forall p <- qs :: IsQueue(m, p) && m.rank[p] < bound
    requires qs != [] && qs[0] == q
    ensures Working(d, c, q)(Wake(m, s, qs, bound))
  {
    var r := TryAdvance(m, s, q);
    if s.blocks[q].waiting != [] {
      OfferToServer(m, s, d, c, q);
    }
    if !r.ok {
      assert qs[0] in qs;
      WorkingIsClosed(m, d, c, q);
      WakeSteps(m, Keeping(Working(d, c, q)), r.st, qs[1..], bound);
    }
  }

  lemma {:induction false} EarlierInTurn(m: Model, s: State, p: BlockId, d: BlockId)
    requires Linked(m) && Fits(m, s) && IsQueue(m, p) && d < |m.blocks| && m.blocks[d].Delay?
    requires TryAdvance(m, s, p).ok && FeedsOnly(m, p, d)
    ensures TryAdvance(m, s, p).st.blocks[d].busy == s.blocks[d].busy + 1
  {
    var ws := s.blocks[p].waiting;
    assert BlockLinked(m, p) && QueueFits(s, ws);
    Reach(m, s, m.blocks[p].next, ws[0].ref);
    OnlyToOccupies(m, s, m.blocks[p].next, ws[0].ref, d);
  }

  lemma CompletionRefills(m: Model, s: State, d: BlockId, c: nat, q: BlockId, ref: EntityRef)
    requires Linked(m) && Fits(m, s) && Serves(m, d, c, q) && ValidRef(s, ref)
    requires WokenInTurn(m, m.blocks[d].waitQueues, q, d) && Working(d, c, q)(s)
    ensures Working(d, c, q)(HandleCompletion(m, s, d, ref))
  {
    var rel := Keeping(Working(d, c, q));
    assert BlockLinked(m, d);
    Reach(m, s, m.blocks[d].next, ref);
    WorkingIsClosed(m, d, c, q);
    TransferSteps(m, rel, s, m.blocks[d].next, ref);
    var r := Enter(m, s, m.blocks[d].next, ref);
    if r.ok {
      var s2 := LeaveDelay(m, r.st, d);
      if s2.stop || Working(d, c, q)(s2) {
        WakeSteps(m, rel, s2, m.blocks[d].waitQueues, m.top);
      } else {
        WakingRefills(m, s2, m.blocks[d].waitQueues, m.top, d, c, q);
      }
    }
  }

  lemma TurnKeepsWorking(m: Model, s: State, i: nat, d: BlockId, c: nat, q: BlockId)
    requires Linked(m) && Fits(m, s) && i < |s.pending| && EventFits(m, s, s.pending[i])
    requires Serves(m, d, c, q) && WokenInTurn(m, m.blocks[d].waitQueues, q, d) && Working(d, c, q)(s)
    ensures Working(d, c, q)(Step(m, s, i))
  {
    var a, s1 := s.pending[i].handler.action, Take(m, s, i);
    if a.Completion? && a.block == d {
      CompletionRefills(m, s1, d, c, q, a.ref);
    } else {
      WorkingIsClosed(m, d, c, q);
      WorkingCreates(m, d, c, q);
      WorkingArrivals(m, d, c, q, a.block);
      WorkingEvents(m, d, c, q, a.block);
      HandlingSteps(m, Keeping(Working(d, c, q)), s1, a);
    }
  }

  lemma {:induction false} StartWorking(m: Model, s: State, b: nat, d: BlockId, c: nat, q: BlockId)
    requires Linked(m) && Fits(m, s) && b <= |m.blocks| && Serves(m, d, c, q) && Working(d, c, q)(s)
    ensures Working(d, c, q)(StartFrom(m, s, b))
    decreases |m.blocks| - b
  {
    if b < |m.blocks| {
      if !m.blocks[b].Create? {
        StartWorking(m, s, b + 1, d, c, q);
      } else {
        StartOneWorking(m, s, b, d, c, q);
        StartWorking(m, if m.blocks[b].immediately then HandleArrival(m, s, b)
          else ScheduleArrival(m, s, b), b + 1, d, c, q);
      }
    }
  }

  lemma StartOneWorking(m: Model, s: State, b: nat, d: BlockId, c: nat, q: BlockId)
    requires Linked(m) && Fits(m, s) && b < |m.blocks| && m.blocks[b].Create? && Serves(m, d, c, q)
             && Working(d, c, q)(s)
    ensures Working(d, c, q)(HandleArrival(m, s, b)) && Working(d, c, q)(ScheduleArrival(m, s, b))
  {
    WorkingIsClosed(m, d, c, q);
    WorkingCreates(m, d, c, q);
    WorkingArrivals(m, d, c, q, b);
    ArrivalHandlingSteps(m, Keeping(Working(d, c, q)), s, b);
  }

  /** Work conservation: at every event boundary a waiting queue means a fully busy server. */
  lemma {:induction false} WorkIsConserved(m: Model, run: seq<State>, d: BlockId, c: nat, q: BlockId)
    requires IsRun(m, run) && Serves(m, d, c, q) && WokenInTurn(m, m.blocks[d].waitQueues, q, d)
    ensures Fits(m, run[|run| - 1])
    ensures var s := run[|run| - 1];
            !s.stop && s.blocks[q].waiting != [] ==> s.blocks[d].busy == c
    ensures Working(d, c, q)(run[|run| - 1])
    decreases |run|
  {
    var n := |run| - 1;
    RunFits(m, run);
    if n == 0 {
      var vars, rng := Beginning(m, run);
      StartWorking(m, Initial(m, vars, rng), 0, d, c, q);
    } else {
      var i := LastTurn(m, run);
      WorkIsConserved(m, run[..n], d, c, q);
      TurnKeepsWorking(m, run[n - 1], i, d, c, q);
    }
  }

  /** With a single wait queue, as in an M/M/c station, no further condition is needed. */
  lemma SingleQueueIsWokenInTurn(m: Model, d: BlockId, c: nat, q: BlockId)
    requires Linked(m) && Serves(m, d, c, q) && m.blocks[d].waitQueues[0] == q
    ensures WokenInTurn(m, m.blocks[d].waitQueues, q, d)
  {
    assert m.blocks[d].waitQueues[0] == q;
  }
}
