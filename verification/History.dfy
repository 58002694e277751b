/** Every scheduled event is handled at most once: along a run the events handled and the events
    still pending are together exactly the events that were ever scheduled. */
module History {
  import opened EventQueues
  import opened Sums
  import opened SimModel
  import opened Semantics
  import opened Steps
  import opened Runs
  import opened Timeline

  // ---------- a turn takes one event away and adds others ----------

  /** No event disappears. */
  ghost function Growing(): Relation {
    (s: State, s': State) => s.pending <= s'.pending
  }

  lemma ServiceGrows(m: Model, s: State, b: BlockId, ref: EntityRef)
    requires Ready(m, s, b, ref) && m.blocks[b].Delay?
    ensures var s' := EnterDelay(m, s, b, ref).st; s.pending <= s'.pending && s'.clock == s.clock
  {
  }

  lemma AdmissionGrows(m: Model, s: State, b: BlockId, ref: EntityRef)
    requires Ready(m, s, b, ref) && IsQueue(m, b) && Ready(m, CountEnter(s, b), b, ref)
    ensures var s' := Admit(m, CountEnter(s, b), b, ref).st; s.pending <= s'.pending && s'.clock == s.clock
  {
  }

  lemma GrowingQueues(m: Model)
    ensures QueueSteps(m, Growing()) && ExpirySteps(m, Growing())
  {
    forall s, b: nat, ref | Ready(m, s, b, ref) && IsQueue(m, b) && Ready(m, CountEnter(s, b), b, ref)
      ensures s.pending <= Admit(m, CountEnter(s, b), b, ref).st.pending
    {
      AdmissionGrows(m, s, b, ref);
    }
  }

  lemma GrowingIsClosed(m: Model)
    ensures Closed(m, Growing())
  {
    GrowingQueues(m);
    forall s, b: nat, ref | Ready(m, s, b, ref) && m.blocks[b].Delay?
      ensures s.pending <= EnterDelay(m, s, b, ref).st.pending
    {
      ServiceGrows(m, s, b, ref);
    }
  }

  lemma GrowingEvents(m: Model, b: BlockId)
    ensures CreateSteps(m, Growing()) && ArrivalSteps(m, Growing(), b) && LeaveSteps(m, Growing(), b)
  {
  }

  lemma TurnGrows(m: Model, s: State, i: nat)
    requires Linked(m) && Fits(m, s) && i < |s.pending| && EventFits(m, s, s.pending[i])
    ensures RemoveAt(s.pending, i) <= Step(m, s, i).pending && Step(m, s, i).clock == s.pending[i].time
  {
    var a, s1 := s.pending[i].handler.action, Take(m, s, i);
    GrowingQueues(m);
    GrowingIsClosed(m);
    GrowingEvents(m, a.block);
    HandlingSteps(m, Growing(), s1, a);
    HandlingKeepsClock(m, s1, a);
  }

  // ---------- the clock moves only between turns ----------

  function SameClock(): Relation {
    (s: State, s': State) => s'.clock == s.clock
  }

  lemma SameClockQueues(m: Model)
    ensures QueueSteps(m, SameClock()) && ExpirySteps(m, SameClock())
  {
    forall s, b: nat, ref | Ready(m, s, b, ref) && IsQueue(m, b) && Ready(m, CountEnter(s, b), b, ref)
      ensures Admit(m, CountEnter(s, b), b, ref).st.clock == s.clock
    {
      AdmissionGrows(m, s, b, ref);
    }
  }

  lemma SameClockIsClosed(m: Model)
    ensures Closed(m, SameClock())
  {
    SameClockQueues(m);
    forall s, b: nat, ref | Ready(m, s, b, ref) && m.blocks[b].Delay?
      ensures EnterDelay(m, s, b, ref).st.clock == s.clock
    {
      ServiceGrows(m, s, b, ref);
    }
  }

  lemma SameClockEvents(m: Model, b: BlockId)
    ensures CreateSteps(m, SameClock()) && ArrivalSteps(m, SameClock(), b) && LeaveSteps(m, SameClock(), b)
  {
  }

  lemma HandlingKeepsClock(m: Model, s: State, a: Action)
    requires Linked(m) && Fits(m, s) && ActionFits(m, s, a)
    ensures Handle(m, s, a).clock == s.clock
  {
    SameClockQueues(m);
    SameClockIsClosed(m);
    SameClockEvents(m, a.block);
    HandlingSteps(m, SameClock(), s, a);
  }

  // ---------- whole runs ----------

  /** What a turn has scheduled: the events after those that it found and did not take. */
  function Added(prev: State, next: State): seq<Event<Action>> {
    if 0 < |prev.pending| <= |next.pending| + 1 then next.pending[|prev.pending| - 1..] else []
  }

  /** All events scheduled up to the end of the run, startup included, in order. */
  function Scheduled(run: seq<State>): seq<Event<Action>>
    requires run != []
    decreases |run|
  {
    var n := |run| - 1;
    if n == 0 then run[0].pending else Scheduled(run[..n]) + Added(run[n - 1], run[n])
  }

  /** handled[k] is the event of the turn from run[k] to run[k + 1]. */
  ghost predicate AreHandled(run: seq<State>, handled: seq<Event<Action>>) {
    && |handled| + 1 == |run|
    && forall k: nat :: k < |handled| ==>
         && handled[k] in run[k].pending && run[k + 1].clock == handled[k].time
         && forall e <- run[k].pending :: handled[k].time <= e.time
  }

  lemma TurnBalances(prev: State, next: State, i: nat)
    requires i < |prev.pending| && RemoveAt(prev.pending, i) <= next.pending
    ensures multiset(prev.pending) + multiset(Added(prev, next)) == multiset{prev.pending[i]} + multiset(next.pending)
  {
    var rest := RemoveAt(prev.pending, i);
    RemoveAtMultiset(prev.pending, i);
    assert next.pending == rest + Added(prev, next);
    assert prev.pending[i] in multiset(prev.pending);
  }

  /** Each event is handled at most once, and only if it was scheduled: what was handled and what is
      pending is together what was scheduled. */
  lemma {:induction false} HandledOnceOnRuns(m: Model, run: seq<State>) returns (handled: seq<Event<Action>>)
    requires IsRun(m, run)
    ensures AreHandled(run, handled)
    ensures multiset(handled) + multiset(run[|run| - 1].pending) == multiset(Scheduled(run))
    decreases |run|
  {
    var n := |run| - 1;
    if n == 0 {
      handled := [];
    } else {
      var i := LastTurn(m, run);
      var earlier := HandledOnceOnRuns(m, run[..n]);
      var e := run[n - 1].pending[i];
      TurnGrows(m, run[n - 1], i);
      TurnBalances(run[n - 1], run[n], i);
      handled := earlier + [e];
      assert Scheduled(run) == Scheduled(run[..n]) + Added(run[n - 1], run[n]);
      hide *;
      Handles(run, earlier, e);
      StillBalanced(earlier, run[n - 1].pending, Scheduled(run[..n]), e, Added(run[n - 1], run[n]), run[n].pending);
    }
  }

  lemma StillBalanced<T>(handled: seq<T>, pending: seq<T>, scheduled: seq<T>, e: T, added: seq<T>, pending': seq<T>)
    requires multiset(handled) + multiset(pending) == multiset(scheduled)
    requires multiset(pending) + multiset(added) == multiset{e} + multiset(pending')
    ensures multiset(handled + [e]) + multiset(pending') == multiset(scheduled + added)
  {
    var h, p, a, q := multiset(handled), multiset(pending), multiset(added), multiset(pending');
    assert multiset(handled + [e]) == h + multiset{e};
    assert h + multiset{e} + q == h + (multiset{e} + q) == h + (p + a) == (h + p) + a;
  }

  lemma Handles(run: seq<State>, earlier: seq<Event<Action>>, e: Event<Action>)
    requires |run| > 1 && AreHandled(run[..|run| - 1], earlier)
    requires var n := |run| - 1;
             e in run[n - 1].pending && run[n].clock == e.time && forall x <- run[n - 1].pending :: e.time <= x.time
    ensures AreHandled(run, earlier + [e])
  {
    var handled, n := earlier + [e], |run| - 1;
    forall k: nat | k < |handled|
      ensures handled[k] in run[k].pending && run[k + 1].clock == handled[k].time
      ensures forall x <- run[k].pending :: handled[k].time <= x.time
    {
      if k < |earlier| {
        assert handled[k] == earlier[k] && run[..n][k] == run[k] && run[..n][k + 1] == run[k + 1];
      }
    }
  }

  /** With non-negative delays events are handled in the order of their times. */
  lemma HandledInOrder(m: Model, run: seq<State>, handled: seq<Event<Action>>, j: nat, k: nat)
    requires IsRun(m, run) && NonNegative(m) && AreHandled(run, handled) && j <= k < |handled|
    ensures handled[j].time <= handled[k].time
  {
    ClockNeverGoesBack(m, run, j + 1, k + 1);
  }
}
