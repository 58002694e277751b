/** Nobody is forgotten: whoever waits in a queue with a timeout has the expiry still pending. */
module Timeouts {
  import opened Options
  import opened EventQueues
  import opened Sums
  import opened SimModel
  import opened Semantics
  import opened Transactions
  import opened Potentials
  import opened Steps
  import opened Runs
  import opened Limits

  ghost predicate Armed(s: State, q: BlockId, ticket: nat) {
    exists i: nat :: i < |s.pending| && s.pending[i].handler == Run(Timeout(q, ticket))
  }

  /** Everybody who waits in q has a pending expiry, except perhaps the holder of one ticket. */
  ghost predicate WaitersArmed(s: State, q: BlockId, exempt: Option<nat>) {
    q < |s.blocks| ==> forall i: nat :: i < |s.blocks[q].waiting| ==>
      exempt == Some(s.blocks[q].waiting[i].ticket) || Armed(s, q, s.blocks[q].waiting[i].ticket)
  }

  ghost function AllArmed(q: BlockId, exempt: Option<nat>): State -> bool {
    (s: State) => WaitersArmed(s, q, exempt)
  }

  /** What can only grow: the pending events; what can only shrink: the tickets waiting in q. */
  ghost predicate Milder(s: State, s': State, q: BlockId) {
    && |s'.blocks| == |s.blocks|
    && s.pending <= s'.pending
    && (q < |s.blocks| ==> forall i: nat ::
         i < |s'.blocks[q].waiting| ==> Waits(s.blocks[q].waiting, s'.blocks[q].waiting[i].ticket))
  }

  predicate Waits(ws: seq<Waiting>, ticket: nat) {
    exists j: nat :: j < |ws| && ws[j].ticket == ticket
  }

  lemma MilderKeepsArmed(s: State, s': State, q: BlockId, exempt: Option<nat>)
    requires Milder(s, s', q) && WaitersArmed(s, q, exempt)
    ensures WaitersArmed(s', q, exempt)
  {
    if q < |s.blocks| {
      forall i: nat | i < |s'.blocks[q].waiting| && exempt != Some(s'.blocks[q].waiting[i].ticket)
        ensures Armed(s', q, s'.blocks[q].waiting[i].ticket)
      {
        var j: nat :| j < |s.blocks[q].waiting| && s.blocks[q].waiting[j].ticket == s'.blocks[q].waiting[i].ticket;
        assert Armed(s, q, s.blocks[q].waiting[j].ticket);
        StaysArmed(s, s', q, s.blocks[q].waiting[j].ticket);
      }
    }
  }

  lemma StaysArmed(s: State, s': State, q: BlockId, ticket: nat)
    requires s.pending <= s'.pending && Armed(s, q, ticket)
    ensures Armed(s', q, ticket)
  {
    var k: nat :| k < |s.pending| && s.pending[k].handler == Run(Timeout(q, ticket));
    assert s'.pending[k] == s.pending[k];
  }

  lemma SameQueueIsMilder(s: State, s': State, q: BlockId)
    requires |s'.blocks| == |s.blocks| && s.pending <= s'.pending
    requires q < |s.blocks| ==> s'.blocks[q].waiting == s.blocks[q].waiting
    ensures Milder(s, s', q)
  {
    if q < |s.blocks| {
      var ws := s.blocks[q].waiting;
      assert forall i: nat :: i < |ws| ==> Waits(ws, ws[i].ticket);
    }
  }

  lemma RemovalIsMilder(s: State, s': State, q: BlockId, i: nat)
    requires |s'.blocks| == |s.blocks| && s'.pending == s.pending && q < |s.blocks| && i < |s.blocks[q].waiting|
    requires s'.blocks[q].waiting == RemoveAt(s.blocks[q].waiting, i)
    ensures Milder(s, s', q)
  {
    var ws := s.blocks[q].waiting;
    forall j: nat | j < |s'.blocks[q].waiting|
      ensures Waits(ws, s'.blocks[q].waiting[j].ticket)
    {
      assert s'.blocks[q].waiting[j] == ws[if j < i then j else j + 1];
    }
  }

  // ---------- every step keeps it ----------

  lemma ArmedQuiet(m: Model, q: BlockId, exempt: Option<nat>)
    ensures Composes(Keeping(AllArmed(q, exempt))) && QuietSteps(m, Keeping(AllArmed(q, exempt)))
  {
    hide WaitersArmed;
    var rel := Keeping(AllArmed(q, exempt));
    forall s, s' | Fits(m, s) && RolledBack(m, s, s') && WaitersArmed(s, q, exempt)
      ensures WaitersArmed(s', q, exempt)
    {
      assert q < |s.blocks| ==> SameBlock(m.blocks[q], s.blocks[q], s'.blocks[q]);
      SameQueueIsMilder(s, s', q);
      MilderKeepsArmed(s, s', q, exempt);
    }
    forall s, s' | Fits(m, s) && SameFlow(s, s') && WaitersArmed(s, q, exempt)
      ensures WaitersArmed(s', q, exempt)
    {
      SameQueueIsMilder(s, s', q);
      MilderKeepsArmed(s, s', q, exempt);
    }
    forall s, b: nat | Fits(m, s) && b < |m.blocks| && PassesThrough(m.blocks[b]) && WaitersArmed(s, q, exempt)
      ensures WaitersArmed(CountPass(s, b), q, exempt)
    {
      SameQueueIsMilder(s, CountPass(s, b), q);
      MilderKeepsArmed(s, CountPass(s, b), q, exempt);
    }
  }

  lemma AdmissionArms(m: Model, s: State, b: BlockId, ref: EntityRef, q: BlockId, exempt: Option<nat>)
    requires Ready(m, s, b, ref) && IsQueue(m, b) && Ready(m, CountEnter(s, b), b, ref)
    requires q < |m.blocks| && m.blocks[q].Queue? && m.blocks[q].timeout.Some?
    requires WaitersArmed(s, q, exempt) && Admit(m, CountEnter(s, b), b, ref).ok
    ensures WaitersArmed(Admit(m, CountEnter(s, b), b, ref).st, q, exempt)
  {
    var s' := Admit(m, CountEnter(s, b), b, ref).st;
    assert s.pending <= s'.pending;
    if b != q {
      SameQueueIsMilder(s, s', q);
      MilderKeepsArmed(s, s', q, exempt);
    } else {
      var n, t := |s.pending|, s.blocks[q].total;
      assert s'.pending[n].handler == Run(Timeout(q, t));
      assert s'.blocks[q].waiting == s.blocks[q].waiting + [Waiting(t, ref)];
      forall i: nat | i < |s'.blocks[q].waiting| && exempt != Some(s'.blocks[q].waiting[i].ticket)
        ensures Armed(s', q, s'.blocks[q].waiting[i].ticket)
      {
        if i < |s.blocks[q].waiting| {
          StaysArmed(s, s', q, s.blocks[q].waiting[i].ticket);
        }
      }
    }
  }

  lemma ArmedQueues(m: Model, q: BlockId, exempt: Option<nat>)
    requires q < |m.blocks| && m.blocks[q].Queue? && m.blocks[q].timeout.Some?
    ensures QueueSteps(m, Keeping(AllArmed(q, exempt))) && ExpirySteps(m, Keeping(AllArmed(q, exempt)))
  {
    hide WaitersArmed;
    forall s, b: nat, ref | Ready(m, s, b, ref) && IsQueue(m, b) && Ready(m, CountEnter(s, b), b, ref)
                            && WaitersArmed(s, q, exempt) && Admit(m, CountEnter(s, b), b, ref).ok
      ensures WaitersArmed(Admit(m, CountEnter(s, b), b, ref).st, q, exempt)
    {
      AdmissionArms(m, s, b, ref, q, exempt);
    }
    forall s, b: nat | Fits(m, s) && IsQueue(m, b) && s.blocks[b].waiting != [] && WaitersArmed(s, q, exempt)
      ensures WaitersArmed(CountExit(DeleteHead(s, b), b), q, exempt)
    {
      HeadLeaves(m, s, b, q);
      MilderKeepsArmed(s, CountExit(DeleteHead(s, b), b), q, exempt);
    }
    forall s, b: nat, i: nat | Fits(m, s) && IsQueue(m, b) && i < |s.blocks[b].waiting| && WaitersArmed(s, q, exempt)
      ensures WaitersArmed(Expire(m, s, b, i), q, exempt)
    {
      ExpiryIsMilder(m, s, b, i, q);
      MilderKeepsArmed(s, Expire(m, s, b, i), q, exempt);
    }
  }

  lemma HeadLeaves(m: Model, s: State, b: BlockId, q: BlockId)
    requires Fits(m, s) && IsQueue(m, b) && s.blocks[b].waiting != []
    ensures Milder(s, CountExit(DeleteHead(s, b), b), q)
  {
    if b == q {
      RemovalIsMilder(s, CountExit(DeleteHead(s, b), b), q, 0);
    } else {
      SameQueueIsMilder(s, CountExit(DeleteHead(s, b), b), q);
    }
  }

  lemma ExpiryIsMilder(m: Model, s: State, b: BlockId, i: nat, q: BlockId)
    requires Fits(m, s) && IsQueue(m, b) && i < |s.blocks[b].waiting|
    ensures Milder(s, Expire(m, s, b, i), q)
  {
    if b == q {
      RemovalIsMilder(s, Expire(m, s, b, i), q, i);
    } else {
      SameQueueIsMilder(s, Expire(m, s, b, i), q);
    }
  }

  predicate SameWaiters(s: State, s': State, q: BlockId) {
    && |s'.blocks| == |s.blocks| && s.pending <= s'.pending
    && (q < |s.blocks| ==> s'.blocks[q].waiting == s.blocks[q].waiting)
  }

  lemma SameWaitersStayArmed(q: BlockId, exempt: Option<nat>)
    ensures forall s, s' {:trigger WaitersArmed(s, q, exempt), WaitersArmed(s', q, exempt)} ::
              SameWaiters(s, s', q) && WaitersArmed(s, q, exempt) ==> WaitersArmed(s', q, exempt)
  {
    hide WaitersArmed;
    forall s, s' | SameWaiters(s, s', q) && WaitersArmed(s, q, exempt)
      ensures WaitersArmed(s', q, exempt)
    {
      SameQueueIsMilder(s, s', q);
      MilderKeepsArmed(s, s', q, exempt);
    }
  }

  lemma ArmedHolds(m: Model, q: BlockId, exempt: Option<nat>)
    ensures HoldSteps(m, Keeping(AllArmed(q, exempt)))
  {
    hide WaitersArmed;
    SameWaitersStayArmed(q, exempt);
  }

  lemma ArmedPlaces(m: Model, q: BlockId, exempt: Option<nat>)
    ensures PlaceSteps(m, Keeping(AllArmed(q, exempt)))
  {
    hide WaitersArmed;
    SameWaitersStayArmed(q, exempt);
    forall s, b: nat, ref | Ready(m, s, b, ref) && m.blocks[b].Delay?
      ensures SameWaiters(s, EnterDelay(m, s, b, ref).st, q)
    {
      ServiceKeepsQueues(m, s, b, ref);
      assert q < |s.blocks| ==> SameQueue(s.blocks[q], EnterDelay(m, s, b, ref).st.blocks[q]);
    }
  }

  lemma ArmedCreates(m: Model, q: BlockId, exempt: Option<nat>)
    ensures CreateSteps(m, Keeping(AllArmed(q, exempt)))
  {
    hide WaitersArmed;
    SameWaitersStayArmed(q, exempt);
  }

  lemma ArmedEvents(m: Model, q: BlockId, exempt: Option<nat>, b: BlockId)
    ensures CreateSteps(m, Keeping(AllArmed(q, exempt)))
    ensures LeaveSteps(m, Keeping(AllArmed(q, exempt)), b) && ArrivalSteps(m, Keeping(AllArmed(q, exempt)), b)
  {
    ArmedCreates(m, q, exempt);
    hide WaitersArmed, CreateSteps;
    SameWaitersStayArmed(q, exempt);
  }

  lemma ArmedIsClosed(m: Model, q: BlockId, exempt: Option<nat>)
    requires q < |m.blocks| && m.blocks[q].Queue? && m.blocks[q].timeout.Some?
    ensures Closed(m, Keeping(AllArmed(q, exempt)))
  {
    ArmedQuiet(m, q, exempt);
    ArmedQueues(m, q, exempt);
    ArmedHolds(m, q, exempt);
    ArmedPlaces(m, q, exempt);
  }

  // ---------- the turn that handles an expiry ----------

  /** Taking an event off the list disarms at most the ticket it was for. */
  lemma TakingDisarmsOne(m: Model, s: State, i: nat, q: BlockId, exempt: Option<nat>)
    requires Fits(m, s) && i < |s.pending| && s.pending[i].handler.Run? && WaitersArmed(s, q, None)
    requires forall t: nat :: s.pending[i].handler.action == Timeout(q, t) ==> exempt == Some(t)
    ensures WaitersArmed(Take(m, s, i), q, exempt)
  {
    var s' := Take(m, s, i);
    if q < |s.blocks| {
      forall k: nat | k < |s'.blocks[q].waiting| && exempt != Some(s'.blocks[q].waiting[k].ticket)
        ensures Armed(s', q, s'.blocks[q].waiting[k].ticket)
      {
        var t := s.blocks[q].waiting[k].ticket;
        assert Armed(s, q, t);
        var j: nat :| j < |s.pending| && s.pending[j].handler == Run(Timeout(q, t));
        assert s'.pending[if j < i then j else j - 1] == s.pending[j];
      }
    }
  }

  lemma ExpiryDisarmsNobody(m: Model, s: State, q: BlockId, i: nat)
    requires Fits(m, s) && IsQueue(m, q) && i < |s.blocks[q].waiting| && InOrder(q)(s)
    requires WaitersArmed(s, q, Some(s.blocks[q].waiting[i].ticket))
    ensures WaitersArmed(Expire(m, s, q, i), q, None)
  {
    var s', ws := Expire(m, s, q, i), s.blocks[q].waiting;
    assert s'.blocks[q].waiting == RemoveAt(ws, i) && s'.pending == s.pending;
    forall k: nat | k < |s'.blocks[q].waiting|
      ensures Armed(s', q, s'.blocks[q].waiting[k].ticket)
    {
      var j := if k < i then k else k + 1;
      assert s'.blocks[q].waiting[k] == ws[j] && ws[j].ticket != ws[i].ticket;
      assert Armed(s, q, ws[j].ticket);
      StaysArmed(s, s', q, ws[j].ticket);
    }
  }

  lemma ExpiryKeepsArmed(m: Model, s: State, q: BlockId, ticket: nat)
    requires Linked(m) && Fits(m, s) && IsQueue(m, q) && m.blocks[q].timeout.Some? && InOrder(q)(s)
    requires WaitersArmed(s, q, Some(ticket))
    ensures WaitersArmed(HandleTimeout(m, s, q, ticket), q, None)
  {
    hide WaitersArmed, TicketsInOrder;
    var rel := Keeping(AllArmed(q, None));
    ArmedIsClosed(m, q, None);
    var ws := s.blocks[q].waiting;
    var i := Find(ws, ticket);
    if i.None? {
      NobodyExempt(s, q, ticket);
    } else {
      ExpiryDisarmsNobody(m, s, q, i.value);
      assert BlockLinked(m, q) && QueueFits(s, ws);
      var s1 := Expire(m, s, q, i.value);
      var next, ref := m.blocks[q].timeout.value.next, ws[i.value].ref;
      Reach(m, s1, next, ref);
      TransferSteps(m, rel, s1, next, ref);
      var r := Enter(m, s1, next, ref);
      assert rel(s1, r.st) && SameFlow(r.st, Halt(r.st, CannotLeaveTimeout(q)));
      assert rel(r.st, Halt(r.st, CannotLeaveTimeout(q)));
    }
  }

  lemma NobodyExempt(s: State, q: BlockId, ticket: nat)
    requires q < |s.blocks| && WaitersArmed(s, q, Some(ticket)) && Find(s.blocks[q].waiting, ticket).None?
    ensures WaitersArmed(s, q, None)
  {
    forall i: nat | i < |s.blocks[q].waiting|
      ensures s.blocks[q].waiting[i].ticket != ticket
    {
      assert s.blocks[q].waiting[i] in s.blocks[q].waiting;
    }
  }

  lemma TurnKeepsArmed(m: Model, s: State, i: nat, q: BlockId)
    requires Linked(m) && Fits(m, s) && i < |s.pending| && EventFits(m, s, s.pending[i])
    requires IsQueue(m, q) && m.blocks[q].timeout.Some? && InOrder(q)(s) && WaitersArmed(s, q, None)
    ensures WaitersArmed(Step(m, s, i), q, None)
  {
    hide WaitersArmed;
    var a, s1 := s.pending[i].handler.action, Take(m, s, i);
    var rel := Keeping(AllArmed(q, None));
    ArmedIsClosed(m, q, None);
    if a.Timeout? && a.block == q {
      TakingDisarmsOne(m, s, i, q, Some(a.ticket));
      ExpiryKeepsArmed(m, s1, q, a.ticket);
    } else {
      TakingDisarmsOne(m, s, i, q, None);
      ArmedEvents(m, q, None, a.block);
      ArmedQueues(m, q, None);
      HandlingSteps(m, rel, s1, a);
    }
    var s2 := Handle(m, s1, a);
    assert SameFlow(s2, CheckStopRule(m, s2));
    assert rel(s2, CheckStopRule(m, s2));
  }

  lemma {:induction false} StartArms(m: Model, s: State, b: nat, q: BlockId)
    requires Linked(m) && Fits(m, s) && b <= |m.blocks| && IsQueue(m, q) && m.blocks[q].timeout.Some?
             && WaitersArmed(s, q, None)
    ensures WaitersArmed(StartFrom(m, s, b), q, None)
    decreases |m.blocks| - b
  {
    hide WaitersArmed;
    if b < |m.blocks| {
      if !m.blocks[b].Create? {
        StartArms(m, s, b + 1, q);
      } else {
        var rel := Keeping(AllArmed(q, None));
        ArmedIsClosed(m, q, None);
        ArmedEvents(m, q, None, b);
        ArrivalHandlingSteps(m, rel, s, b);
        assert rel(s, ScheduleArrival(m, s, b));
        StartArms(m, if m.blocks[b].immediately then HandleArrival(m, s, b) else ScheduleArrival(m, s, b), b + 1, q);
      }
    }
  }

  // ---------- on runs ----------

  /** At every event boundary each entity that waits in a queue with a timeout has its expiry pending. */
  lemma {:induction false} WaitersArmedOnRuns(m: Model, run: seq<State>, q: BlockId)
    requires IsRun(m, run) && IsQueue(m, q) && m.blocks[q].timeout.Some?
    ensures Fits(m, run[|run| - 1])
    ensures var s := run[|run| - 1];
            forall i: nat :: i < |s.blocks[q].waiting| ==> Armed(s, q, s.blocks[q].waiting[i].ticket)
    decreases |run|
  {
    hide Armed, Linked, Step, StartFrom, TicketsInOrder;
    RunFits(m, run);
    var n := |run| - 1;
    if n == 0 {
      var vars, rng := Beginning(m, run);
      StartArms(m, Initial(m, vars, rng), 0, q);
    } else {
      var i := LastTurn(m, run);
      WaitersArmedOnRuns(m, run[..n], q);
      TicketsInOrderOnRuns(m, run[..n], q);
      TurnKeepsArmed(m, run[n - 1], i, q);
    }
  }

  /** A simulation that has run out of events has left nobody in a queue with a timeout. */
  lemma NobodyWaitsForever(m: Model, run: seq<State>, q: BlockId)
    requires IsRun(m, run) && IsQueue(m, q) && m.blocks[q].timeout.Some? && run[|run| - 1].pending == []
    ensures Fits(m, run[|run| - 1])
    ensures run[|run| - 1].blocks[q].waiting == []
  {
    WaitersArmedOnRuns(m, run, q);
    var s := run[|run| - 1];
    assert s.blocks[q].waiting != [] ==> Armed(s, q, s.blocks[q].waiting[0].ticket);
  }
}
