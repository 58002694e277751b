/** Invariants of single parts of the state: resources, the counters of CREATE blocks, and the
    tickets of waiting entities. */
module Limits {
  import opened Sums
  import opened SimModel
  import opened Semantics
  import opened Transactions
  import opened Potentials
  import opened Steps
  import opened Runs

  /** The relation of an invariant: what held before still holds. */
  ghost function Keeping(inv: State -> bool): Relation {
    (s: State, s': State) => inv(s) ==> inv(s')
  }

  /** An invariant that every step keeps and that does not look at the clock or the pending events
      holds at every event boundary if it holds initially. */
  ghost predicate Invariant(m: Model, inv: State -> bool) {
    && Closed(m, Keeping(inv)) && CreateSteps(m, Keeping(inv)) && ExpirySteps(m, Keeping(inv))
    && (forall b: nat {:trigger LeaveSteps(m, Keeping(inv), b)} :: LeaveSteps(m, Keeping(inv), b))
    && (forall s, s' {:trigger inv(s), inv(s')} :: SameButEvents(s, s') && inv(s) ==> inv(s'))
  }

  ghost predicate SameButEvents(s: State, s': State) {
    s' == s.(clock := s'.clock, pending := s'.pending, rng := s'.rng)
  }

  lemma InvariantArrivals(m: Model, inv: State -> bool, c: BlockId)
    requires Invariant(m, inv)
    ensures ArrivalSteps(m, Keeping(inv), c)
  {
    forall s | Linked(m) && Fits(m, s) && c < |m.blocks| && m.blocks[c].Create?
      ensures Keeping(inv)(s, ScheduleArrival(m, s, c))
    {
      assert SameButEvents(s, ScheduleArrival(m, s, c));
    }
  }

  lemma TurnKeepsInvariant(m: Model, inv: State -> bool, s: State, i: nat)
    requires Invariant(m, inv)
    requires Linked(m) && Fits(m, s) && i < |s.pending| && EventFits(m, s, s.pending[i]) && inv(s)
    ensures inv(Step(m, s, i))
  {
    var a, s1 := s.pending[i].handler.action, Take(m, s, i);
    assert SameButEvents(s, s1);
    InvariantArrivals(m, inv, a.block);
    assert LeaveSteps(m, Keeping(inv), a.block);
    HandlingSteps(m, Keeping(inv), s1, a);
    var s2 := Handle(m, s1, a);
    assert SameFlow(s2, CheckStopRule(m, s2));
    assert Keeping(inv)(s2, CheckStopRule(m, s2));
  }

  lemma {:induction false} StartKeepsInvariant(m: Model, inv: State -> bool, s: State, b: nat)
    requires Invariant(m, inv) && Linked(m) && Fits(m, s) && b <= |m.blocks| && inv(s)
    ensures inv(StartFrom(m, s, b))
    decreases |m.blocks| - b
  {
    if b < |m.blocks| {
      if !m.blocks[b].Create? {
        StartKeepsInvariant(m, inv, s, b + 1);
      } else {
        InvariantArrivals(m, inv, b);
        assert Keeping(inv)(s, ScheduleArrival(m, s, b));
        ArrivalHandlingSteps(m, Keeping(inv), s, b);
        StartKeepsInvariant(m, inv, if m.blocks[b].immediately then HandleArrival(m, s, b)
          else ScheduleArrival(m, s, b), b + 1);
      }
    }
  }

  lemma {:induction false} InvariantOnRuns(m: Model, inv: State -> bool, run: seq<State>)
    requires IsRun(m, run) && Invariant(m, inv)
    requires forall vars, rng :: |vars| == |m.vars| ==> inv(Initial(m, vars, rng))
    ensures Fits(m, run[|run| - 1]) && inv(run[|run| - 1])
    decreases |run|
  {
    var n := |run| - 1;
    RunFits(m, run);
    if n == 0 {
      var vars, rng := Beginning(m, run);
      StartKeepsInvariant(m, inv, Initial(m, vars, rng), 0);
    } else {
      var i := LastTurn(m, run);
      InvariantOnRuns(m, inv, run[..n]);
      TurnKeepsInvariant(m, inv, run[n - 1], i);
    }
  }

  // ---------- resources ----------

  function WithinCapacity(k: nat, c: nat): State -> bool {
    (s: State) => k < |s.res| ==> s.res[k].busy <= s.res[k].maxBusy <= s.res[k].capacity == c
  }

  lemma WithinCapacityQuiet(m: Model, k: nat, c: nat)
    ensures Composes(Keeping(WithinCapacity(k, c))) && QuietSteps(m, Keeping(WithinCapacity(k, c)))
    ensures PlaceSteps(m, Keeping(WithinCapacity(k, c)))
  {
  }

  lemma WithinCapacityQueues(m: Model, k: nat, c: nat)
    ensures QueueSteps(m, Keeping(WithinCapacity(k, c))) && ExpirySteps(m, Keeping(WithinCapacity(k, c)))
  {
    var rel := Keeping(WithinCapacity(k, c));
    forall s, b: nat, ref | Ready(m, s, b, ref) && IsQueue(m, b) && Ready(m, CountEnter(s, b), b, ref)
      ensures rel(s, Admit(m, CountEnter(s, b), b, ref).st)
    {
      AdmissionKeepsResources(m, s, b, ref);
    }
  }

  lemma AdmissionKeepsResources(m: Model, s: State, b: BlockId, ref: EntityRef)
    requires Ready(m, s, b, ref) && IsQueue(m, b) && Ready(m, CountEnter(s, b), b, ref)
    ensures Admit(m, CountEnter(s, b), b, ref).st.res == s.res
  {
  }

  lemma WithinCapacityHolds(m: Model, k: nat, c: nat)
    ensures HoldSteps(m, Keeping(WithinCapacity(k, c)))
  {
  }

  lemma WithinCapacityEvents(m: Model, k: nat, c: nat)
    ensures CreateSteps(m, Keeping(WithinCapacity(k, c)))
    ensures forall b: nat :: LeaveSteps(m, Keeping(WithinCapacity(k, c)), b)
  {
  }

  lemma WithinCapacityIsInvariant(m: Model, k: nat, c: nat)
    ensures Invariant(m, WithinCapacity(k, c))
  {
    WithinCapacityQuiet(m, k, c);
    WithinCapacityQueues(m, k, c);
    WithinCapacityHolds(m, k, c);
    WithinCapacityEvents(m, k, c);
  }

  /** Never, not even after a stop, are more units held than the resource has. */
  lemma ResourceWithinCapacity(m: Model, run: seq<State>, k: nat)
    requires IsRun(m, run) && k < |m.resources|
    ensures Fits(m, run[|run| - 1])
    ensures var x := run[|run| - 1].res[k]; x.busy <= x.maxBusy <= x.capacity == m.resources[k].capacity
  {
    WithinCapacityIsInvariant(m, k, m.resources[k].capacity);
    InvariantOnRuns(m, WithinCapacity(k, m.resources[k].capacity), run);
  }

  // ---------- tickets ----------

  /** Tickets are dealt in increasing order and never twice, so a ticket names one entity for good. */
  ghost predicate TicketsInOrder(ws: seq<Waiting>, total: nat) {
    && (forall i, j :: 0 <= i < j < |ws| ==> ws[i].ticket < ws[j].ticket)
    && (forall i :: 0 <= i < |ws| ==> ws[i].ticket < total)
  }

  ghost function InOrder(q: BlockId): State -> bool {
    (s: State) => q < |s.blocks| ==>
      TicketsInOrder(s.blocks[q].waiting, s.blocks[q].total) && |s.blocks[q].waiting| <= s.blocks[q].maxLen
  }

  lemma TicketsAfterRemoval(ws: seq<Waiting>, total: nat, i: nat)
    requires TicketsInOrder(ws, total) && i < |ws|
    ensures TicketsInOrder(RemoveAt(ws, i), total)
  {
  }

  lemma TicketsAfterPush(ws: seq<Waiting>, total: nat, ref: EntityRef)
    requires TicketsInOrder(ws, total)
    ensures TicketsInOrder(ws + [Waiting(total, ref)], total + 1)
  {
  }

  lemma InOrderQuiet(m: Model, q: BlockId)
    ensures Composes(Keeping(InOrder(q))) && QuietSteps(m, Keeping(InOrder(q)))
  {
    var rel := Keeping(InOrder(q));
    forall s, s' | Fits(m, s) && RolledBack(m, s, s')
      ensures rel(s, s')
    {
      assert q < |s.blocks| ==> SameBlock(m.blocks[q], s.blocks[q], s'.blocks[q]);
    }
  }

  lemma InOrderHolds(m: Model, q: BlockId)
    ensures HoldSteps(m, Keeping(InOrder(q)))
  {
  }

  lemma ServiceKeepsQueues(m: Model, s: State, b: BlockId, ref: EntityRef)
    requires Ready(m, s, b, ref) && m.blocks[b].Delay?
    ensures var s' := EnterDelay(m, s, b, ref).st;
            |s'.blocks| == |s.blocks| && forall a: nat :: a < |s.blocks| ==> SameQueue(s.blocks[a], s'.blocks[a])
  {
  }

  predicate SameQueue(x: BlockState, y: BlockState) {
    y.waiting == x.waiting && y.total == x.total && y.maxLen == x.maxLen
  }

  lemma InOrderPlaces(m: Model, q: BlockId)
    ensures PlaceSteps(m, Keeping(InOrder(q)))
  {
    forall s, b: nat, ref | Ready(m, s, b, ref) && m.blocks[b].Delay?
      ensures Keeping(InOrder(q))(s, EnterDelay(m, s, b, ref).st)
    {
      ServiceKeepsQueues(m, s, b, ref);
      assert q < |s.blocks| ==> SameQueue(s.blocks[q], EnterDelay(m, s, b, ref).st.blocks[q]);
    }
  }

  lemma AdmissionInOrder(m: Model, s: State, b: BlockId, ref: EntityRef, q: BlockId)
    requires Ready(m, s, b, ref) && IsQueue(m, b) && Ready(m, CountEnter(s, b), b, ref) && InOrder(q)(s)
    ensures Admit(m, CountEnter(s, b), b, ref).ok ==> InOrder(q)(Admit(m, CountEnter(s, b), b, ref).st)
  {
    if b == q {
      TicketsAfterPush(s.blocks[b].waiting, s.blocks[b].total, ref);
    }
  }

  lemma InOrderQueues(m: Model, q: BlockId)
    ensures QueueSteps(m, Keeping(InOrder(q))) && ExpirySteps(m, Keeping(InOrder(q)))
  {
    var rel := Keeping(InOrder(q));
    forall s, b: nat, ref | Ready(m, s, b, ref) && IsQueue(m, b) && Ready(m, CountEnter(s, b), b, ref) && InOrder(q)(s)
      ensures Admit(m, CountEnter(s, b), b, ref).ok ==> InOrder(q)(Admit(m, CountEnter(s, b), b, ref).st)
    {
      AdmissionInOrder(m, s, b, ref, q);
    }
    forall s, b: nat, i: nat | Fits(m, s) && IsQueue(m, b) && i < |s.blocks[b].waiting| && InOrder(q)(s)
      ensures InOrder(q)(Expire(m, s, b, i))
    {
      if b == q {
        TicketsAfterRemoval(s.blocks[b].waiting, s.blocks[b].total, i);
      }
    }
  }

  lemma InOrderEvents(m: Model, q: BlockId)
    ensures CreateSteps(m, Keeping(InOrder(q)))
    ensures forall b: nat :: LeaveSteps(m, Keeping(InOrder(q)), b)
  {
  }

  lemma InOrderIsInvariant(m: Model, q: BlockId)
    ensures Invariant(m, InOrder(q))
  {
    InOrderQuiet(m, q);
    InOrderHolds(m, q);
    InOrderPlaces(m, q);
    InOrderQueues(m, q);
    InOrderEvents(m, q);
  }

  lemma TicketsInOrderOnRuns(m: Model, run: seq<State>, q: BlockId)
    requires IsRun(m, run) && IsQueue(m, q)
    ensures Fits(m, run[|run| - 1])
    ensures var x := run[|run| - 1].blocks[q]; TicketsInOrder(x.waiting, x.total) && |x.waiting| <= x.maxLen
  {
    InOrderIsInvariant(m, q);
    InvariantOnRuns(m, InOrder(q), run);
  }

  // ---------- CREATE blocks ----------

  function SameCreate(c: BlockId): Relation {
    (s: State, s': State) => |s'.blocks| == |s.blocks| && (c < |s.blocks| ==> s'.blocks[c] == s.blocks[c])
  }

  lemma SameCreateQuiet(m: Model, c: BlockId)
    requires c < |m.blocks| && m.blocks[c].Create?
    ensures Composes(SameCreate(c)) && QuietSteps(m, SameCreate(c)) && HoldSteps(m, SameCreate(c))
  {
    var rel := SameCreate(c);
    forall s, s' | Fits(m, s) && RolledBack(m, s, s')
      ensures rel(s, s')
    {
      assert SameBlock(m.blocks[c], s.blocks[c], s'.blocks[c]);
    }
  }

  lemma SameCreateMoves(m: Model, c: BlockId)
    requires c < |m.blocks| && m.blocks[c].Create?
    ensures QueueSteps(m, SameCreate(c))
  {
    forall s, b: nat, ref | Ready(m, s, b, ref) && IsQueue(m, b) && Ready(m, CountEnter(s, b), b, ref)
      ensures SameCreate(c)(s, Admit(m, CountEnter(s, b), b, ref).st)
    {
      AdmissionKeepsCreate(m, s, b, ref, c);
    }
  }

  lemma AdmissionKeepsCreate(m: Model, s: State, b: BlockId, ref: EntityRef, c: BlockId)
    requires Ready(m, s, b, ref) && IsQueue(m, b) && Ready(m, CountEnter(s, b), b, ref)
    requires c < |m.blocks| && m.blocks[c].Create?
    ensures SameCreate(c)(s, Admit(m, CountEnter(s, b), b, ref).st)
  {
  }

  lemma SameCreateExpiries(m: Model, c: BlockId)
    requires c < |m.blocks| && m.blocks[c].Create?
    ensures ExpirySteps(m, SameCreate(c))
  {
  }

  lemma SameCreatePlaces(m: Model, c: BlockId)
    requires c < |m.blocks| && m.blocks[c].Create?
    ensures PlaceSteps(m, SameCreate(c))
  {
  }

  lemma SameCreateIsClosed(m: Model, c: BlockId)
    requires c < |m.blocks| && m.blocks[c].Create?
    ensures Closed(m, SameCreate(c)) && ExpirySteps(m, SameCreate(c))
  {
    SameCreateQuiet(m, c);
    SameCreateMoves(m, c);
    SameCreateExpiries(m, c);
    SameCreatePlaces(m, c);
  }

  /** What the CREATE made and has neither handed on nor dropped. */
  function HeldBy(s: State, c: BlockId): int
    requires c < |s.blocks|
  {
    s.blocks[c].createdN - s.blocks[c].exitN - s.blocks[c].dropN
  }

  /** A CREATE holds at most one entity, and only once the simulation has stopped. */
  predicate CreateBalanced(s: State, c: BlockId)
    requires c < |s.blocks|
  {
    0 <= HeldBy(s, c) <= 1 && (!s.stop ==> HeldBy(s, c) == 0)
  }

  /** A new entity on offer is held by its CREATE. */
  lemma OfferHolds(m: Model, s: State, b: BlockId, c: BlockId)
    requires Linked(m) && Fits(m, s) && b < |m.blocks| && m.blocks[b].Create? && c < |m.blocks| && m.blocks[c].Create?
    ensures var (s1, ref) := Spawn(m, s, b);
            && Ready(m, s1, m.blocks[b].next, ref)
            && HeldBy(Enter(m, s1, m.blocks[b].next, ref).st, c) == HeldBy(s, c) + if b == c then 1 else 0
  {
    assert BlockLinked(m, b);
    var (s1, ref) := Spawn(m, s, b);
    Reach(m, s1, m.blocks[b].next, ref);
    SameCreateIsClosed(m, c);
    TransferSteps(m, SameCreate(c), s1, m.blocks[b].next, ref);
  }

  lemma GenerateOneHolds(m: Model, s: State, b: BlockId, c: BlockId)
    requires Linked(m) && Fits(m, s) && b < |m.blocks| && m.blocks[b].Create? && c < |m.blocks| && m.blocks[c].Create?
    ensures var (s', hand) := GenerateOne(m, s, b);
            HeldBy(s', c) == HeldBy(s, c) + if b == c && hand.Some? then 1 else 0
  {
    OfferHolds(m, s, b, c);
    hide Spawn, Enter, BlockLinked;
    var (s1, ref) := Spawn(m, s, b);
    CountFits(m, Enter(m, s1, m.blocks[b].next, ref).st, b);
  }

  lemma {:induction false} BatchHolds(m: Model, s: State, b: BlockId, n: nat, c: BlockId)
    requires Linked(m) && Fits(m, s) && b < |m.blocks| && m.blocks[b].Create? && c < |m.blocks| && m.blocks[c].Create?
    ensures var (s', hand) := Passes(BatchBody(m, b), s, n);
            && Fits(m, s') && (hand.Some? ==> s'.stop)
            && HeldBy(s', c) == HeldBy(s, c) + if b == c && hand.Some? then 1 else 0
    decreases n
  {
    hide GenerateOne, Linked, TargetFits, BlockLinked;
    assert |s.blocks| == |m.blocks|;
    if n > 0 {
      var one := GenerateOne(m, s, b);
      GenerateOneHolds(m, s, b, c);
      FirstPass(m, s, b, n);
      assert |one.0.blocks| == |m.blocks|;
      hide Passes, Fits, HeldBy;
      if one.1.None? {
        BatchHolds(m, one.0, b, n - 1, c);
      }
    }
  }

  lemma FirstPass(m: Model, s: State, b: BlockId, n: nat)
    requires Linked(m) && Fits(m, s) && b < |m.blocks| && m.blocks[b].Create? && n > 0
    ensures var one := GenerateOne(m, s, b);
            Passes(BatchBody(m, b), s, n) == if one.1.Some? then one else Passes(BatchBody(m, b), one.0, n - 1)
  {
    hide GenerateOne;
    assert BatchBody(m, b)(s) == GenerateOne(m, s, b);
  }

  /** An arrival leaves its own CREATE with at most the entity in hand, and the others alone. */
  lemma ArrivalHolds(m: Model, s: State, b: BlockId, c: BlockId)
    requires Linked(m) && Fits(m, s) && b < |m.blocks| && m.blocks[b].Create? && c < |m.blocks| && m.blocks[c].Create?
    ensures var s' := HandleArrival(m, s, b);
            && (b != c ==> HeldBy(s', c) == HeldBy(s, c))
            && HeldBy(s, c) <= HeldBy(s', c) <= HeldBy(s, c) + (if s'.stop then 1 else 0)
    ensures HeldBy(ScheduleArrival(m, s, b), c) == HeldBy(s, c)
  {
    var (n, rng) := m.blocks[b].batch(Look(s));
    PlainFits(m, s, s.(rng := rng));
    BatchHolds(m, s.(rng := rng), b, n, c);
  }

  lemma TurnKeepsCreateBalanced(m: Model, s: State, i: nat, c: BlockId)
    requires Linked(m) && Fits(m, s) && i < |s.pending| && EventFits(m, s, s.pending[i]) && !s.stop
    requires c < |m.blocks| && m.blocks[c].Create? && CreateBalanced(s, c)
    ensures CreateBalanced(Step(m, s, i), c)
  {
    var a, s1 := s.pending[i].handler.action, Take(m, s, i);
    match a {
      case Arrival(b) => ArrivalHolds(m, s1, b, c);
      case Completion(d, ref) => OthersKeepCreate(m, s1, a, c);
      case Timeout(q, ticket) => OthersKeepCreate(m, s1, a, c);
    }
  }

  lemma OthersKeepCreate(m: Model, s: State, a: Action, c: BlockId)
    requires Linked(m) && Fits(m, s) && ActionFits(m, s, a) && !a.Arrival?
    requires c < |m.blocks| && m.blocks[c].Create?
    ensures Handle(m, s, a).blocks[c] == s.blocks[c]
  {
    SameCreateIsClosed(m, c);
    if a.Completion? {
      assert LeaveSteps(m, SameCreate(c), a.block);
      CompletionHandlingSteps(m, SameCreate(c), s, a.block, a.ref);
    } else {
      TimeoutHandlingSteps(m, SameCreate(c), s, a.block, a.ticket);
    }
  }

  /** startCreateBlocks runs each CREATE once, so none of them holds more than one entity. */
  lemma {:induction false} StartHolds(m: Model, s: State, b: nat, c: BlockId)
    requires Linked(m) && Fits(m, s) && b <= |m.blocks|
    requires c < |m.blocks| && m.blocks[c].Create? && CreateBalanced(s, c) && (b <= c ==> HeldBy(s, c) == 0)
    ensures CreateBalanced(StartFrom(m, s, b), c)
    decreases |m.blocks| - b
  {
    if b < |m.blocks| {
      if !m.blocks[b].Create? {
        StartHolds(m, s, b + 1, c);
      } else {
        ArrivalHolds(m, s, b, c);
        hide HandleArrival;
        StartHolds(m, if m.blocks[b].immediately then HandleArrival(m, s, b) else ScheduleArrival(m, s, b), b + 1, c);
      }
    }
  }

  /** CREATE: every entity it made went on or was destroyed, except for one in hand after a stop. */
  lemma {:induction false} CreateBalanceOnRuns(m: Model, run: seq<State>, c: BlockId)
    requires IsRun(m, run) && c < |m.blocks| && m.blocks[c].Create?
    ensures Fits(m, run[|run| - 1]) && CreateBalanced(run[|run| - 1], c)
    decreases |run|
  {
    var n := |run| - 1;
    RunFits(m, run);
    if n == 0 {
      var vars, rng := Beginning(m, run);
      StartHolds(m, Initial(m, vars, rng), 0, c);
    } else {
      var i := LastTurn(m, run);
      CreateBalanceOnRuns(m, run[..n], c);
      TurnKeepsCreateBalanced(m, run[n - 1], i, c);
    }
  }
}
