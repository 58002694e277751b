/** Exactly when a turn lets a DELAY idle beside a queue that feeds it. */
module Idling {
  import opened SimModel
  import opened Semantics
  import opened Transactions
  import opened Steps
  import opened Limits
  import opened WorkConservation

  // ---------- the DELAY is never over capacity ----------

  function Within(d: BlockId, c: nat): State -> bool {
    (s: State) => d < |s.blocks| && s.blocks[d].busy <= c
  }

  lemma WithinQuiet(m: Model, d: BlockId, c: nat)
    requires d < |m.blocks|
    ensures Composes(Keeping(Within(d, c))) && QuietSteps(m, Keeping(Within(d, c)))
            && HoldSteps(m, Keeping(Within(d, c)))
  {
    forall s, s' | Fits(m, s) && RolledBack(m, s, s')
      ensures Keeping(Within(d, c))(s, s')
    {
      assert SameBlock(m.blocks[d], s.blocks[d], s'.blocks[d]);
    }
  }

  lemma ServiceStaysWithin(m: Model, s: State, b: BlockId, ref: EntityRef, d: BlockId, c: nat, q: BlockId)
    requires Serves(m, d, c, q) && Ready(m, s, b, ref) && m.blocks[b].Delay? && EnterDelay(m, s, b, ref).ok
             && s.blocks[d].busy <= c
    ensures EnterDelay(m, s, b, ref).st.blocks[d].busy <= c
  {
  }

  lemma WithinQueues(m: Model, d: BlockId, c: nat)
    requires d < |m.blocks|
    ensures QueueSteps(m, Keeping(Within(d, c)))
  {
    forall s, b: nat, ref | Ready(m, s, b, ref) && IsQueue(m, b) && Ready(m, CountEnter(s, b), b, ref)
      && Admit(m, CountEnter(s, b), b, ref).ok
      ensures Admit(m, CountEnter(s, b), b, ref).st.blocks[d].busy == s.blocks[d].busy
    {
      AdmissionGrowsQueue(m, s, b, ref);
    }
  }

  lemma WithinPlaces(m: Model, d: BlockId, c: nat, q: BlockId)
    requires Serves(m, d, c, q)
    ensures PlaceSteps(m, Keeping(Within(d, c)))
  {
    forall s, b: nat, ref | Ready(m, s, b, ref) && m.blocks[b].Delay? && EnterDelay(m, s, b, ref).ok && Within(d, c)(s)
      ensures Within(d, c)(EnterDelay(m, s, b, ref).st)
    {
      ServiceStaysWithin(m, s, b, ref, d, c, q);
    }
  }

  lemma WithinIsClosed(m: Model, d: BlockId, c: nat, q: BlockId)
    requires Serves(m, d, c, q)
    ensures Closed(m, Keeping(Within(d, c)))
  {
    WithinQuiet(m, d, c);
    WithinQueues(m, d, c);
    WithinPlaces(m, d, c, q);
  }

  // ---------- a transfer frees no place of a DELAY ----------

  function Busier(d: BlockId): Relation {
    (s: State, s': State) =>
      |s'.blocks| == |s.blocks| && (d < |s.blocks| ==> s.blocks[d].busy <= s'.blocks[d].busy)
  }

  lemma BusierQueues(m: Model, d: BlockId)
    ensures QueueSteps(m, Busier(d))
  {
    forall s, b: nat, ref | Ready(m, s, b, ref) && IsQueue(m, b) && Ready(m, CountEnter(s, b), b, ref)
                            && Admit(m, CountEnter(s, b), b, ref).ok
      ensures Busier(d)(s, Admit(m, CountEnter(s, b), b, ref).st)
    {
      AdmissionGrowsQueue(m, s, b, ref);
    }
  }

  lemma BusierPlaces(m: Model, d: BlockId)
    ensures PlaceSteps(m, Busier(d))
  {
  }

  lemma BusierQuiet(m: Model, d: BlockId)
    ensures Composes(Busier(d)) && QuietSteps(m, Busier(d)) && HoldSteps(m, Busier(d))
  {
    forall s, s' | Fits(m, s) && RolledBack(m, s, s')
      ensures Busier(d)(s, s')
    {
      assert d < |m.blocks| ==> SameBlock(m.blocks[d], s.blocks[d], s'.blocks[d]);
    }
  }

  lemma AdvanceFreesNoPlace(m: Model, s: State, p: BlockId, d: BlockId)
    requires Linked(m) && Fits(m, s) && IsQueue(m, p)
    ensures Busier(d)(s, TryAdvance(m, s, p).st)
  {
    BusierQuiet(m, d);
    BusierQueues(m, d);
    BusierPlaces(m, d);
    AdvanceSteps(m, Busier(d), s, p);
  }

  // ---------- waking ----------

  /** d has room although q waits, and the simulation goes on. */
  predicate Idles(s: State, d: BlockId, c: nat, q: BlockId) {
    !s.stop && d < |s.blocks| && q < |s.blocks| && s.blocks[q].waiting != [] && s.blocks[d].busy < c
  }

  /** The first wait queue that advances comes before q, and its entity took no place in d; q still waits. */
  ghost predicate Diverted(m: Model, s: State, qs: seq<BlockId>, d: BlockId, q: BlockId)
    requires Linked(m) && Fits(m, s) && d < |m.blocks| && q < |m.blocks| && forall p <- qs :: IsQueue(m, p)
    decreases |qs|
  {
    qs != [] && qs[0] != q &&
    var r := TryAdvance(m, s, qs[0]);
    if r.ok then r.st.blocks[d].busy == s.blocks[d].busy && r.st.blocks[q].waiting != [] && !r.st.stop
    else Diverted(m, r.st, qs[1..], d, q)
  }

  /** While a place is open, waking leaves it open beside q exactly in that case. */
  lemma {:induction false} WakingIdlesExactly(m: Model, s: State, qs: seq<BlockId>, bound: nat, d: BlockId, c: nat,
                                              q: BlockId)
    requires Linked(m) && Fits(m, s) && Serves(m, d, c, q) && s.blocks[d].busy + 1 == c
    requires (forall p <- qs :: IsQueue(m, p) && m.rank[p] < bound) && q in qs
    ensures !Working(d, c, q)(Wake(m, s, qs, bound)) <==> Diverted(m, s, qs, d, q)
    decreases |qs|
  {
    assert qs[0] in qs;
    if qs[0] == q {
      FirstInTurn(m, s, qs, bound, d, c, q);
    } else {
      var r := TryAdvance(m, s, qs[0]);
      WithinIsClosed(m, d, c, q);
      AdvanceSteps(m, Keeping(Within(d, c)), s, qs[0]);
      assert Within(d, c)(s) && Keeping(Within(d, c))(s, r.st);
      AdvanceFreesNoPlace(m, s, qs[0], d);
      if !r.ok {
        RefusedAdvanceLeavesNoTrace(m, s, qs[0]);
        assert SameBlock(m.blocks[d], s.blocks[d], r.st.blocks[d]);
        assert q in qs[1..];
        WakingIdlesExactly(m, r.st, qs[1..], bound, d, c, q);
      }
    }
  }

  // ---------- turns ----------

  /** The state in which the completion of d wakes its queues, if the entity could leave. */
  ghost function AfterLeaving(m: Model, s: State, d: BlockId, ref: EntityRef): (r: Outcome)
    requires Linked(m) && Fits(m, s) && d < |m.blocks| && m.blocks[d].Delay? && ValidRef(s, ref)
    ensures Fits(m, r.st)
  {
    assert BlockLinked(m, d);
    Reach(m, s, m.blocks[d].next, ref);
    var r := Enter(m, s, m.blocks[d].next, ref);
    if r.ok then Outcome(LeaveDelay(m, r.st, d), true) else r
  }

  /** The freed place of d goes to another queue's entity that does not use it. */
  ghost predicate DivertedAtCompletion(m: Model, s: State, d: BlockId, c: nat, q: BlockId, ref: EntityRef)
    requires Linked(m) && Fits(m, s) && d < |m.blocks| && m.blocks[d].Delay? && q < |m.blocks| && ValidRef(s, ref)
  {
    var r := AfterLeaving(m, s, d, ref);
    assert BlockLinked(m, d);
    r.ok && Idles(r.st, d, c, q) && Diverted(m, r.st, m.blocks[d].waitQueues, d, q)
  }

  lemma CompletionIdlesExactly(m: Model, s: State, d: BlockId, c: nat, q: BlockId, ref: EntityRef)
    requires Linked(m) && Fits(m, s) && Serves(m, d, c, q) && ValidRef(s, ref) && Working(d, c, q)(s)
    ensures !Working(d, c, q)(HandleCompletion(m, s, d, ref)) <==> DivertedAtCompletion(m, s, d, c, q, ref)
  {
    var rel := Keeping(Working(d, c, q));
    assert BlockLinked(m, d);
    Reach(m, s, m.blocks[d].next, ref);
    WorkingIsClosed(m, d, c, q);
    TransferSteps(m, rel, s, m.blocks[d].next, ref);
    var r := Enter(m, s, m.blocks[d].next, ref);
    if r.ok {
      var s2 := LeaveDelay(m, r.st, d);
      if Idles(s2, d, c, q) {
        WakingIdlesExactly(m, s2, m.blocks[d].waitQueues, m.top, d, c, q);
      } else {
        WakeSteps(m, rel, s2, m.blocks[d].waitQueues, m.top);
      }
    }
  }

  /** From a boundary where work is conserved, a turn ends with d idle beside q exactly if it completes
      a service of d, does not stop, and the freed place is diverted. */
  lemma TurnIdlesExactly(m: Model, s: State, i: nat, d: BlockId, c: nat, q: BlockId)
    requires Linked(m) && Fits(m, s) && i < |s.pending| && EventFits(m, s, s.pending[i])
    requires Serves(m, d, c, q) && Working(d, c, q)(s)
    ensures var a := s.pending[i].handler.action;
            Idles(Step(m, s, i), d, c, q) <==>
              a.Completion? && a.block == d && DivertedAtCompletion(m, Take(m, s, i), d, c, q, a.ref)
                && !Step(m, s, i).stop
  {
    var a, s1 := s.pending[i].handler.action, Take(m, s, i);
    if a.Completion? && a.block == d {
      CompletionIdlesExactly(m, s1, d, c, q, a.ref);
      CompletionStaysWithin(m, s1, d, c, q, a.ref);
    } else {
      WorkingIsClosed(m, d, c, q);
      WorkingCreates(m, d, c, q);
      WorkingArrivals(m, d, c, q, a.block);
      WorkingEvents(m, d, c, q, a.block);
      HandlingSteps(m, Keeping(Working(d, c, q)), s1, a);
    }
  }

  lemma CompletionStaysWithin(m: Model, s: State, d: BlockId, c: nat, q: BlockId, ref: EntityRef)
    requires Linked(m) && Fits(m, s) && Serves(m, d, c, q) && ValidRef(s, ref) && Working(d, c, q)(s)
    ensures s.stop || Within(d, c)(HandleCompletion(m, s, d, ref))
  {
    if !s.stop {
      WithinIsClosed(m, d, c, q);
      assert forall u: State {:trigger LeaveDelay(m, u, d)} ::
        Fits(m, u) && Within(d, c)(u) ==> Within(d, c)(LeaveDelay(m, u, d));
      CompletionHandlingSteps(m, Keeping(Within(d, c)), s, d, ref);
    }
  }
}
