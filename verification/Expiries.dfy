/** How long an entity waits in a queue with a timeout: its ticket has one expiry, scheduled in the
    turn that dealt the ticket, and the entity has left the queue when that expiry has been handled. */
module Expiries {
  import opened Options
  import opened EventQueues
  import opened Sums
  import opened SimModel
  import opened Semantics
  import opened Transactions
  import opened Steps
  import opened Runs
  import opened Limits
  import opened Timeline
  import opened History
  import opened Timeouts
  import opened Due
  import opened BlockLaws

  predicate IsTimed(m: Model, q: BlockId) {
    IsQueue(m, q) && m.blocks[q].timeout.Some?
  }

  /** The ticket of queue q that event e will expire. */
  function TicketOf(e: Event<Action>, q: BlockId): Option<nat> {
    if e.handler.Run? && e.handler.action.Timeout? && e.handler.action.block == q then Some(e.handler.action.ticket)
    else None
  }

  // ---------- tickets are dealt together with their expiries ----------

  /** Between n and n', the expiries that es holds from position k on are those of the tickets from
      n to n', one for each. */
  ghost predicate OneEach(es: seq<Event<Action>>, k: nat, q: BlockId, n: nat, n': nat) {
    && n <= n'
    && (forall i: nat :: k <= i < |es| && TicketOf(es[i], q).Some? ==> n <= TicketOf(es[i], q).value < n')
    && (forall i: nat, j: nat ::
         k <= i < j < |es| && TicketOf(es[i], q).Some? ==> TicketOf(es[i], q) != TicketOf(es[j], q))
    && (forall t: nat :: n <= t < n' ==> Holds(es, k, q, t))
  }

  ghost predicate Holds(es: seq<Event<Action>>, k: nat, q: BlockId, t: nat) {
    exists i: nat :: k <= i < |es| && TicketOf(es[i], q) == Some(t)
  }

  ghost predicate Deals(s: State, s': State, q: BlockId) {
    && |s'.blocks| == |s.blocks| && s.pending <= s'.pending
    && (q < |s.blocks| ==> OneEach(s'.pending, |s.pending|, q, s.blocks[q].total, s'.blocks[q].total))
  }

  ghost function Dealing(q: BlockId): Relation {
    (s: State, s': State) => Deals(s, s', q)
  }

  lemma OneEachComposes(es: seq<Event<Action>>, fs: seq<Event<Action>>, k: nat, q: BlockId, n0: nat, n1: nat, n2: nat)
    requires es <= fs && k <= |es| && OneEach(es, k, q, n0, n1) && OneEach(fs, |es|, q, n1, n2)
    ensures OneEach(fs, k, q, n0, n2)
  {
    assert forall i: nat :: i < |es| ==> fs[i] == es[i];
    forall t: nat | n0 <= t < n2
      ensures Holds(fs, k, q, t)
    {
      if t < n1 {
        assert Holds(es, k, q, t);
        var i: nat :| k <= i < |es| && TicketOf(es[i], q) == Some(t);
        assert TicketOf(fs[i], q) == Some(t);
      } else {
        assert Holds(fs, |es|, q, t);
      }
    }
  }

  lemma DealsComposes(s: State, t: State, u: State, q: BlockId)
    requires Deals(s, t, q) && Deals(t, u, q)
    ensures Deals(s, u, q)
  {
    hide OneEach;
    if q < |s.blocks| {
      OneEachComposes(t.pending, u.pending, |s.pending|, q, s.blocks[q].total, t.blocks[q].total, u.blocks[q].total);
    }
  }

  /** Steps that deal no ticket and schedule no expiry. */
  predicate DealsNone(s: State, s': State, q: BlockId) {
    && |s'.blocks| == |s.blocks| && s.pending <= s'.pending
    && (q < |s.blocks| ==> s'.blocks[q].total == s.blocks[q].total)
    && forall i: nat :: |s.pending| <= i < |s'.pending| ==> TicketOf(s'.pending[i], q) == None
  }

  lemma DealsNoneDeals(s: State, s': State, q: BlockId)
    requires DealsNone(s, s', q)
    ensures Deals(s, s', q)
  {
  }

  lemma AdmissionDeals(m: Model, s: State, b: BlockId, ref: EntityRef, q: BlockId)
    requires IsTimed(m, q)
    requires Ready(m, s, b, ref) && IsQueue(m, b) && Ready(m, CountEnter(s, b), b, ref)
    ensures Deals(s, Admit(m, CountEnter(s, b), b, ref).st, q)
  {
    var s', t := Admit(m, CountEnter(s, b), b, ref).st, s.blocks[b].total;
    if b == q && Admit(m, CountEnter(s, b), b, ref).ok {
      var n := |s.pending|;
      assert |s'.pending| == n + 1 && s'.blocks[q].total == t + 1;
      assert TicketOf(s'.pending[n], q) == Some(t);
      assert Holds(s'.pending, n, q, t);
    } else {
      DealsNoneDeals(s, s', q);
    }
  }

  lemma ServiceDealsNone(m: Model, s: State, b: BlockId, ref: EntityRef, q: BlockId)
    requires Ready(m, s, b, ref) && m.blocks[b].Delay?
    ensures DealsNone(s, EnterDelay(m, s, b, ref).st, q)
  {
    ServiceKeepsQueues(m, s, b, ref);
    assert q < |s.blocks| ==> SameQueue(s.blocks[q], EnterDelay(m, s, b, ref).st.blocks[q]);
  }

  lemma DealingQuiet(m: Model, q: BlockId)
    ensures Composes(Dealing(q)) && QuietSteps(m, Dealing(q))
  {
    hide OneEach;
    forall s, t, u | Deals(s, t, q) && Deals(t, u, q)
      ensures Deals(s, u, q)
    {
      DealsComposes(s, t, u, q);
    }
    forall s, s' | DealsNone(s, s', q)
      ensures Deals(s, s', q)
    {
      DealsNoneDeals(s, s', q);
    }
    forall s, s' | Fits(m, s) && RolledBack(m, s, s')
      ensures DealsNone(s, s', q)
    {
      assert q < |s.blocks| ==> SameBlock(m.blocks[q], s.blocks[q], s'.blocks[q]);
    }
  }

  lemma DealsNoneSuffices(q: BlockId)
    ensures forall s, s' {:trigger Deals(s, s', q)} :: DealsNone(s, s', q) ==> Deals(s, s', q)
  {
    forall s, s' | DealsNone(s, s', q)
      ensures Deals(s, s', q)
    {
      DealsNoneDeals(s, s', q);
    }
  }

  lemma DealingQueues(m: Model, q: BlockId)
    requires IsTimed(m, q)
    ensures QueueSteps(m, Dealing(q)) && ExpirySteps(m, Dealing(q))
  {
    DealsNoneSuffices(q);
    hide Deals;
    forall s, b: nat, ref | Ready(m, s, b, ref) && IsQueue(m, b) && Ready(m, CountEnter(s, b), b, ref)
      ensures Deals(s, Admit(m, CountEnter(s, b), b, ref).st, q)
    {
      AdmissionDeals(m, s, b, ref, q);
    }
    forall s, t, u | Deals(s, t, q) && Deals(t, u, q)
      ensures Deals(s, u, q)
    {
      DealsComposes(s, t, u, q);
    }
  }

  lemma DealingMoves(m: Model, q: BlockId)
    ensures HoldSteps(m, Dealing(q)) && PlaceSteps(m, Dealing(q))
  {
    DealsNoneSuffices(q);
    hide Deals;
    forall s, b: nat, ref | Ready(m, s, b, ref) && m.blocks[b].Delay?
      ensures DealsNone(s, EnterDelay(m, s, b, ref).st, q)
    {
      ServiceDealsNone(m, s, b, ref, q);
    }
  }

  lemma SpawnDealsNone(m: Model, s: State, c: BlockId, q: BlockId)
    requires Linked(m) && Fits(m, s) && c < |m.blocks| && m.blocks[c].Create?
    ensures DealsNone(s, Spawn(m, s, c).0, q)
  {
  }

  lemma DestroyingDealsNone(m: Model, s: State, c: BlockId, ref: EntityRef, q: BlockId)
    requires Fits(m, s) && c < |m.blocks| && ValidRef(s, ref) && Fits(m, CountDrop(s, c))
    ensures DealsNone(s, FreeEntity(m, CountDrop(s, c), ref), q)
  {
  }

  lemma DealingCreates(m: Model, q: BlockId)
    ensures CreateSteps(m, Dealing(q))
  {
    hide Deals, Linked, Fits, Spawn, FreeEntity;
    DealsNoneSuffices(q);
    AllSized(m);
    forall s, c: nat | Linked(m) && Fits(m, s) && c < |m.blocks| && m.blocks[c].Create?
      ensures DealsNone(s, Spawn(m, s, c).0, q)
    {
      SpawnDealsNone(m, s, c, q);
    }
    forall s, c: nat, ref | Fits(m, s) && c < |m.blocks| && ValidRef(s, ref) && Fits(m, CountDrop(s, c))
      ensures DealsNone(s, FreeEntity(m, CountDrop(s, c), ref), q)
    {
      DestroyingDealsNone(m, s, c, ref, q);
    }
    forall s, c: nat | Fits(m, s) && c < |m.blocks|
      ensures DealsNone(s, CountExit(s, c), q)
    {
      ExitDealsNone(s, c, q);
    }
  }

  lemma ExitDealsNone(s: State, c: BlockId, q: BlockId)
    requires c < |s.blocks|
    ensures DealsNone(s, CountExit(s, c), q)
  {
  }

  lemma AllSized(m: Model)
    ensures forall s {:trigger Fits(m, s)} :: Fits(m, s) ==> |s.blocks| == |m.blocks|
  {
  }

  lemma DealingEvents(m: Model, q: BlockId, b: BlockId)
    ensures ArrivalSteps(m, Dealing(q), b) && LeaveSteps(m, Dealing(q), b)
  {
    DealsNoneSuffices(q);
    hide Deals;
  }

  lemma DealingEverywhere(m: Model, q: BlockId)
    requires IsTimed(m, q)
    ensures EveryStep(m, Dealing(q))
  {
    hide QuietSteps, QueueSteps, HoldSteps, PlaceSteps, Composes, CreateSteps, ExpirySteps, ArrivalSteps, LeaveSteps;
    DealingQuiet(m, q);
    DealingQueues(m, q);
    DealingMoves(m, q);
    DealingCreates(m, q);
    forall b: nat
      ensures ArrivalSteps(m, Dealing(q), b) && LeaveSteps(m, Dealing(q), b)
    {
      DealingEvents(m, q, b);
    }
  }

  // ---------- admission ----------

  /** The i-th event of es is the only one that will expire ticket t of queue q. */
  ghost predicate OnlyExpiry(es: seq<Event<Action>>, q: BlockId, t: nat, i: nat) {
    && i < |es| && TicketOf(es[i], q) == Some(t)
    && forall j: nat :: j < |es| && j != i ==> TicketOf(es[j], q) != Some(t)
  }

  /** The tickets of q that pending events will expire have been dealt. */
  ghost predicate ExpiriesDealt(s: State, q: BlockId) {
    q < |s.blocks| &&
    forall i: nat :: i < |s.pending| && TicketOf(s.pending[i], q).Some? ==>
      TicketOf(s.pending[i], q).value < s.blocks[q].total
  }

  lemma JoinedHasOnly(m: Model, s: State, t: State, b: BlockId, ref: EntityRef, u: State)
    requires IsTimed(m, b) && ExpiriesDealt(s, b) && Joined(m, s, t, b, ref) && Deals(t, u, b)
    ensures var n, ticket := |s.pending|, s.blocks[b].total;
            var delay := m.blocks[b].timeout.value.delay.eval(Look(Counted(m, s, b)), ref).0;
            OnlyExpiry(u.pending, b, ticket, n) && u.pending[n] == Event(s.clock + delay, Run(Timeout(b, ticket)))
  {
    hide Look;
    var n, ticket := |s.pending|, s.blocks[b].total;
    assert u.pending[n] == t.pending[n];
    forall j: nat | j < |u.pending| && j != n
      ensures TicketOf(u.pending[j], b) != Some(ticket)
    {
      if j < n {
        assert u.pending[j] == t.pending[j] == s.pending[j];
      } else {
        assert |t.pending| <= j;
      }
    }
  }

  /** An entity admitted to a queue with a timeout has exactly one pending expiry, that of the ticket
      it got, due at the clock of its admission plus the value of the timeout expression for it. */
  lemma AdmittedExpires(m: Model, s: State, b: BlockId, ref: EntityRef)
    requires Ready(m, s, b, ref) && IsTimed(m, b) && ExpiriesDealt(s, b)
    requires HasRoom(s, m.blocks[b].capacity, |s.blocks[b].waiting|) && TimeoutIsFor(m, b, ref)
    ensures var n, ticket, r := |s.pending|, s.blocks[b].total, EnterQueue(m, s, b, ref);
            var delay := m.blocks[b].timeout.value.delay.eval(Look(Counted(m, s, b)), ref).0;
            && r.ok && OnlyExpiry(r.st.pending, b, ticket, n)
            && r.st.pending[n] == Event(s.clock + delay, Run(Timeout(b, ticket)))
  {
    hide EveryStep, Joined, Look, Counted, Deals, ExpiriesDealt;
    var t := QueueWithRoom(m, s, b, ref);
    DealingEverywhere(m, b);
    DealingIsClosed(m, b);
    AdvanceSteps(m, Dealing(b), t, b);
    JoinedHasOnly(m, s, t, b, ref, EnterQueue(m, s, b, ref).st);
  }

  lemma DealingIsClosed(m: Model, q: BlockId)
    requires EveryStep(m, Dealing(q))
    ensures Closed(m, Dealing(q))
  {
    hide Closed;
  }

  // ---------- on runs ----------

  /** Ticket t of q was dealt in the turn that leads to boundary k, or during startup if k is 0. */
  ghost predicate Dealt(run: seq<State>, q: BlockId, t: nat, k: nat) {
    && k < |run| && q < |run[k].blocks| && t < run[k].blocks[q].total
    && (k > 0 ==> q < |run[k - 1].blocks| && run[k - 1].blocks[q].total <= t)
  }

  lemma LastTurnDeals(m: Model, run: seq<State>, q: BlockId) returns (i: nat)
    requires IsRun(m, run) && |run| > 1 && IsTimed(m, q)
    ensures var s := run[|run| - 2];
            && IsRun(m, run[..|run| - 1]) && Fits(m, s) && Fits(m, run[|run| - 1])
            && Next(s, i) && run[|run| - 1] == Step(m, s, i)
            && Deals(Take(m, s, i), run[|run| - 1], q)
  {
    hide EveryStep, Step, Deals;
    RunFits(m, run);
    i := LastTurn(m, run);
    DealingEverywhere(m, q);
    TurnSteps(m, Dealing(q), run[|run| - 2], i);
  }

  lemma StartDeals(m: Model, run: seq<State>, q: BlockId)
    requires IsRun(m, run) && |run| == 1 && IsTimed(m, q)
    ensures Fits(m, run[0]) && OneEach(run[0].pending, 0, q, 0, run[0].blocks[q].total)
  {
    hide EveryStep, StartFrom;
    RunFits(m, run);
    var vars, rng := Beginning(m, run);
    DealingEverywhere(m, q);
    StartSteps(m, Dealing(q), Initial(m, vars, rng), 0);
  }

  lemma {:induction false} ExpiriesDealtOnRuns(m: Model, run: seq<State>, q: BlockId)
    requires IsRun(m, run) && IsTimed(m, q)
    ensures ExpiriesDealt(run[|run| - 1], q)
    decreases |run|
  {
    assert run != [];
    var n := |run| - 1;
    hide Step, Fits, IsRun;
    if n == 0 {
      StartDeals(m, run, q);
      SizedRun(m, run);
    } else {
      var i := LastTurnDeals(m, run, q);
      ExpiriesDealtOnRuns(m, run[..n], q);
      TurnKeepsDealt(m, run[n - 1], i, run[n], q);
    }
  }

  lemma SizedRun(m: Model, run: seq<State>)
    requires IsRun(m, run)
    ensures |run[|run| - 1].blocks| == |m.blocks|
  {
    RunFits(m, run);
  }

  lemma TurnKeepsDealt(m: Model, s: State, i: nat, s': State, q: BlockId)
    requires Fits(m, s) && i < |s.pending| && ExpiriesDealt(s, q) && Deals(Take(m, s, i), s', q)
    ensures ExpiriesDealt(s', q) && s.blocks[q].total <= s'.blocks[q].total
  {
    var kept := RemoveAt(s.pending, i);
    forall j: nat | j < |s'.pending| && TicketOf(s'.pending[j], q).Some?
      ensures TicketOf(s'.pending[j], q).value < s'.blocks[q].total
    {
      if j < |kept| {
        assert s'.pending[j] == kept[j] == s.pending[if j < i then j else j + 1];
      }
    }
  }

  /** All pending events that will expire ticket t are among those that the turn to boundary k added. */
  ghost predicate FromTurn(run: seq<State>, q: BlockId, t: nat, k: nat, s: State)
    requires k < |run|
  {
    && (forall i: nat :: i < |s.pending| && TicketOf(s.pending[i], q) == Some(t) ==>
         s.pending[i] in ScheduledAt(run, k))
    && (forall i: nat, j: nat :: i < j < |s.pending| && TicketOf(s.pending[i], q) == Some(t) ==>
         TicketOf(s.pending[j], q) != Some(t))
  }

  lemma StartIsTurn(run: seq<State>, q: BlockId, t: nat)
    requires run != [] && q < |run[0].blocks| && OneEach(run[0].pending, 0, q, 0, run[0].blocks[q].total)
    ensures FromTurn(run, q, t, 0, run[0])
  {
  }

  /** The turn that deals the ticket: what was pending before it expires earlier tickets. */
  lemma DealingTurn(run: seq<State>, k: nat, i: nat, s: State, q: BlockId, t: nat)
    requires 0 < k < |run| && i < |run[k - 1].pending| && s.pending == RemoveAt(run[k - 1].pending, i)
    requires s.blocks == run[k - 1].blocks && q < |s.blocks| && s.blocks[q].total <= t
    requires ExpiriesDealt(run[k - 1], q) && Deals(s, run[k], q)
    ensures FromTurn(run, q, t, k, run[k])
  {
    var es, kept := run[k].pending, s.pending;
    forall j: nat | j < |kept|
      ensures TicketOf(es[j], q) != Some(t)
    {
      assert es[j] == kept[j] == run[k - 1].pending[if j < i then j else j + 1];
    }
    assert Added(run[k - 1], run[k]) == es[|kept|..];
  }

  /** Later turns add no expiry of a ticket that is already dealt. */
  lemma LaterTurn(run: seq<State>, k: nat, prev: State, i: nat, s: State, s': State, q: BlockId, t: nat)
    requires k < |run| && i < |prev.pending| && s.pending == RemoveAt(prev.pending, i) && s.blocks == prev.blocks
    requires q < |prev.blocks| && t < prev.blocks[q].total && Deals(s, s', q) && FromTurn(run, q, t, k, prev)
    ensures FromTurn(run, q, t, k, s')
  {
    hide ScheduledAt;
    forall j: nat | j < |s'.pending| && TicketOf(s'.pending[j], q) == Some(t)
      ensures j < |s.pending| && s'.pending[j] == prev.pending[if j < i then j else j + 1]
    {
    }
  }

  lemma LastTurnFacts(m: Model, run: seq<State>, q: BlockId) returns (i: nat, taken: State)
    requires IsRun(m, run) && |run| > 1 && IsTimed(m, q)
    ensures var prev, s' := run[|run| - 2], run[|run| - 1];
            && IsRun(m, run[..|run| - 1]) && i < |prev.pending|
            && taken.pending == RemoveAt(prev.pending, i) && taken.blocks == prev.blocks
            && q < |prev.blocks| && q < |s'.blocks| && prev.blocks[q].total <= s'.blocks[q].total
            && ExpiriesDealt(prev, q) && Deals(taken, s', q)
  {
    hide Step, Deals, ExpiriesDealt;
    var n := |run| - 1;
    i := LastTurnDeals(m, run, q);
    taken := Take(m, run[n - 1], i);
    ExpiriesDealtOnRuns(m, run[..n], q);
    TurnKeepsDealt(m, run[n - 1], i, run[n], q);
  }

  lemma {:induction false} ExpiriesOfTicket(m: Model, run: seq<State>, q: BlockId, t: nat, k: nat)
    requires IsRun(m, run) && IsTimed(m, q) && Dealt(run, q, t, k)
    ensures FromTurn(run, q, t, k, run[|run| - 1])
    ensures q < |run[|run| - 1].blocks| && t < run[|run| - 1].blocks[q].total
    decreases |run|
  {
    assert k < |run|;
    hide IsRun, Deals, FromTurn, OneEach, ExpiriesDealt;
    var n := |run| - 1;
    if n == 0 {
      StartDeals(m, run, q);
      StartIsTurn(run, q, t);
    } else {
      var i, taken := LastTurnFacts(m, run, q);
      if k == n {
        DealingTurn(run, n, i, taken, q, t);
      } else {
        DealtEarlier(run, q, t, k);
        ExpiriesOfTicket(m, run[..n], q, t, k);
        SameTurn(run, q, t, k, run[n - 1]);
        LaterTurn(run, k, run[n - 1], i, taken, run[n], q, t);
      }
    }
  }

  lemma DealtEarlier(run: seq<State>, q: BlockId, t: nat, k: nat)
    requires Dealt(run, q, t, k) && k < |run| - 1
    ensures Dealt(run[..|run| - 1], q, t, k)
  {
  }

  lemma SameTurn(run: seq<State>, q: BlockId, t: nat, k: nat, s: State)
    requires k + 1 < |run| && FromTurn(run[..|run| - 1], q, t, k, s)
    ensures FromTurn(run, q, t, k, s)
  {
    assert ScheduledAt(run, k) == ScheduledAt(run[..|run| - 1], k);
  }

  lemma {:induction false} DealtOnce(m: Model, run: seq<State>, q: BlockId, t: nat) returns (k: nat)
    requires IsRun(m, run) && IsTimed(m, q)
    requires q < |run[|run| - 1].blocks| && t < run[|run| - 1].blocks[q].total
    ensures Dealt(run, q, t, k)
    decreases |run|
  {
    var n := |run| - 1;
    if n == 0 {
      k := 0;
    } else {
      PrefixIsRun(m, run);
      SizedRun(m, run[..n]);
      if t < run[n - 1].blocks[q].total {
        k := DealtOnce(m, run[..n], q, t);
      } else {
        k := n;
      }
    }
  }

  /** Whoever waits in a queue with a timeout has exactly one pending expiry; it was scheduled in the
      turn that dealt its ticket and is due at the clock of that turn plus a value of the timeout. */
  lemma WaiterHasOneExpiry(m: Model, run: seq<State>, q: BlockId, w: nat) returns (k: nat, i: nat)
    requires IsRun(m, run) && IsTimed(m, q)
    requires q < |run[|run| - 1].blocks| && w < |run[|run| - 1].blocks[q].waiting|
    ensures var s := run[|run| - 1];
            && Dealt(run, q, s.blocks[q].waiting[w].ticket, k)
            && OnlyExpiry(s.pending, q, s.blocks[q].waiting[w].ticket, i) && DueFrom(m, run[k].clock, s.pending[i])
  {
    assert run != [];
    hide IsRun, DueFrom, Armed, ScheduledAt, Dealt;
    var s := run[|run| - 1];
    var t := s.blocks[q].waiting[w].ticket;
    TicketsInOrderOnRuns(m, run, q);
    k := DealtOnce(m, run, q, t);
    ExpiriesOfTicket(m, run, q, t, k);
    WaitersArmedOnRuns(m, run, q);
    i := ArmedAt(s, q, t);
    TurnSchedulesDue(m, run, k, s.pending[i]);
  }

  lemma ArmedAt(s: State, q: BlockId, t: nat) returns (i: nat)
    requires Armed(s, q, t)
    ensures i < |s.pending| && TicketOf(s.pending[i], q) == Some(t)
  {
    i :| i < |s.pending| && s.pending[i].handler == Run(Timeout(q, t));
  }

  // ---------- constant timeouts ----------

  /** The timeout of q is c whatever the state and the entity. */
  ghost predicate ConstantTimeout(m: Model, q: BlockId, c: real) {
    && IsTimed(m, q)
    && var delay := m.blocks[q].timeout.value.delay;
       forall v, r {:trigger delay.eval(v, r)} :: delay.eval(v, r).0 == c
  }

  lemma DueIsConstant(m: Model, q: BlockId, c: real, clock: real, e: Event<Action>, t: nat)
    requires ConstantTimeout(m, q, c) && DueFrom(m, clock, e) && TicketOf(e, q) == Some(t)
    ensures e.time == clock + c
  {
  }

  /** Nobody is kept waiting longer than c: the ticket of whoever waits was dealt at most c ago. */
  lemma NobodyWaitsLonger(m: Model, run: seq<State>, q: BlockId, c: real, w: nat) returns (k: nat)
    requires IsRun(m, run) && NonNegative(m) && ConstantTimeout(m, q, c)
    requires q < |run[|run| - 1].blocks| && w < |run[|run| - 1].blocks[q].waiting|
    ensures Dealt(run, q, run[|run| - 1].blocks[q].waiting[w].ticket, k)
    ensures run[|run| - 1].clock <= run[k].clock + c
  {
    hide NonNegative, DueFrom, ConstantTimeout, Deals;
    TimedIfConstant(m, q, c);
    var s := run[|run| - 1];
    var i: nat;
    k, i := WaiterHasOneExpiry(m, run, q, w);
    DueIsConstant(m, q, c, run[k].clock, s.pending[i], s.blocks[q].waiting[w].ticket);
    PendingIsAhead(m, run);
  }

  lemma TimedIfConstant(m: Model, q: BlockId, c: real)
    requires ConstantTimeout(m, q, c)
    ensures IsTimed(m, q)
  {
  }

  /** Nobody leaves by next_timeout early: the turn that handles the expiry of a ticket runs at the
      clock of the turn that dealt it plus c, exactly. */
  lemma LeavesWhenDue(m: Model, run: seq<State>, q: BlockId, c: real, t: nat, k: nat, i: nat)
    requires IsRun(m, run) && |run| > 1 && ConstantTimeout(m, q, c)
    requires Takes(m, run[|run| - 2], run[|run| - 1], i) && run[|run| - 2].pending[i].handler == Run(Timeout(q, t))
    requires Dealt(run[..|run| - 1], q, t, k)
    ensures run[|run| - 1].clock == run[k].clock + c
  {
    hide Step, DueFrom, ConstantTimeout, ScheduledAt;
    var n := |run| - 1;
    var e := run[n - 1].pending[i];
    TimedIfConstant(m, q, c);
    PrefixIsRun(m, run);
    ExpiriesOfTicket(m, run[..n], q, t, k);
    TurnSchedulesDue(m, run[..n], k, e);
    DueIsConstant(m, q, c, run[k].clock, e, t);
    assert EventFits(m, run[n - 1], e);
    TurnGrows(m, run[n - 1], i);
  }

  // ---------- which turns count a timeout ----------

  predicate SameTimeoutN(s: State, s': State, q: BlockId) {
    |s'.blocks| == |s.blocks| && (q < |s.blocks| ==> s'.blocks[q].timeoutN == s.blocks[q].timeoutN)
  }

  function KeepingTimeoutN(q: BlockId): Relation {
    (s: State, s': State) => SameTimeoutN(s, s', q)
  }

  lemma AdmissionKeepsTimeoutN(m: Model, s: State, b: BlockId, ref: EntityRef, q: BlockId)
    requires Ready(m, s, b, ref) && IsQueue(m, b) && Ready(m, CountEnter(s, b), b, ref)
    ensures SameTimeoutN(s, Admit(m, CountEnter(s, b), b, ref).st, q)
  {
  }

  lemma KeepingTimeoutNQuiet(m: Model, q: BlockId)
    ensures QuietSteps(m, KeepingTimeoutN(q)) && HoldSteps(m, KeepingTimeoutN(q))
  {
    forall s, s' | Fits(m, s) && RolledBack(m, s, s')
      ensures SameTimeoutN(s, s', q)
    {
      assert q < |s.blocks| ==> SameBlock(m.blocks[q], s.blocks[q], s'.blocks[q]);
    }
  }

  lemma KeepingTimeoutNQueues(m: Model, q: BlockId)
    ensures QueueSteps(m, KeepingTimeoutN(q))
  {
    forall s, b: nat, ref | Ready(m, s, b, ref) && IsQueue(m, b) && Ready(m, CountEnter(s, b), b, ref)
      ensures SameTimeoutN(s, Admit(m, CountEnter(s, b), b, ref).st, q)
    {
      AdmissionKeepsTimeoutN(m, s, b, ref, q);
    }
  }

  lemma ServiceKeepsTimeoutN(m: Model, s: State, b: BlockId, ref: EntityRef, q: BlockId)
    requires Ready(m, s, b, ref) && m.blocks[b].Delay?
    ensures SameTimeoutN(s, EnterDelay(m, s, b, ref).st, q)
  {
  }

  lemma KeepingTimeoutNPlaces(m: Model, q: BlockId)
    ensures PlaceSteps(m, KeepingTimeoutN(q))
  {
    forall s, b: nat, ref | Ready(m, s, b, ref) && m.blocks[b].Delay?
      ensures SameTimeoutN(s, EnterDelay(m, s, b, ref).st, q)
    {
      ServiceKeepsTimeoutN(m, s, b, ref, q);
    }
  }

  lemma KeepingTimeoutNIsClosed(m: Model, q: BlockId)
    ensures Closed(m, KeepingTimeoutN(q))
  {
    KeepingTimeoutNQuiet(m, q);
    KeepingTimeoutNQueues(m, q);
    KeepingTimeoutNPlaces(m, q);
  }

  lemma KeepingTimeoutNCreates(m: Model, q: BlockId)
    ensures CreateSteps(m, KeepingTimeoutN(q))
  {
  }

  lemma KeepingTimeoutNEvents(m: Model, q: BlockId, b: BlockId)
    ensures ArrivalSteps(m, KeepingTimeoutN(q), b) && LeaveSteps(m, KeepingTimeoutN(q), b)
  {
  }

  lemma ExpiryCounts(m: Model, s: State, b: BlockId, ticket: nat, q: BlockId)
    requires Linked(m) && Fits(m, s) && IsQueue(m, b) && m.blocks[b].timeout.Some? && q < |m.blocks|
    ensures |HandleTimeout(m, s, b, ticket).blocks| == |m.blocks|
    ensures HandleTimeout(m, s, b, ticket).blocks[q].timeoutN ==
              s.blocks[q].timeoutN + if b == q && Waits(s.blocks[b].waiting, ticket) then 1 else 0
  {
    hide Enter, Closed;
    Sized(m, HandleTimeout(m, s, b, ticket));
    var ws := s.blocks[b].waiting;
    var i := Find(ws, ticket);
    if i.None? {
      assert forall j: nat :: j < |ws| ==> ws[j] in ws;
    } else {
      assert ws[i.value].ticket == ticket;
      assert BlockLinked(m, b) && QueueFits(s, ws);
      var s1, next, ref := Expire(m, s, b, i.value), m.blocks[b].timeout.value.next, ws[i.value].ref;
      Reach(m, s1, next, ref);
      KeepingTimeoutNIsClosed(m, q);
      TransferSteps(m, KeepingTimeoutN(q), s1, next, ref);
    }
  }

  /** Only handling the expiry of a ticket that still waits makes a queue count a timeout, and only one. */
  lemma TimeoutsCounted(m: Model, s: State, i: nat, q: BlockId)
    requires Linked(m) && Fits(m, s) && i < |s.pending| && EventFits(m, s, s.pending[i]) && q < |m.blocks|
    ensures |Step(m, s, i).blocks| == |m.blocks|
    ensures var t := TicketOf(s.pending[i], q);
            Step(m, s, i).blocks[q].timeoutN ==
              s.blocks[q].timeoutN + if t.Some? && Waits(s.blocks[q].waiting, t.value) then 1 else 0
  {
    hide HandleArrival, HandleCompletion, HandleTimeout, Waits, Closed, CreateSteps, ArrivalSteps, LeaveSteps;
    var a, s1 := s.pending[i].handler.action, Take(m, s, i);
    Sized(m, Step(m, s, i));
    KeepingTimeoutNIsClosed(m, q);
    KeepingTimeoutNCreates(m, q);
    KeepingTimeoutNEvents(m, q, a.block);
    match a
    case Arrival(c) => ArrivalHandlingSteps(m, KeepingTimeoutN(q), s1, c);
    case Completion(d, ref) => CompletionHandlingSteps(m, KeepingTimeoutN(q), s1, d, ref);
    case Timeout(b, ticket) => ExpiryCounts(m, s1, b, ticket, q);
  }
}
