/** Time: no event lies in the past, the clock never goes back, every event is handled once,
    and each CREATE always has its next arrival scheduled. */
module Timeline {
  import opened EventQueues
  import opened Sums
  import opened SimModel
  import opened Semantics
  import opened Steps
  import opened Runs

  /** Durations, intervals and timeouts are never negative, whatever the random stream yields. */
  ghost predicate NonNegative(m: Model) {
    forall b: nat :: b < |m.blocks| ==> BlockNonNegative(m.blocks[b])
  }

  ghost predicate BlockNonNegative(k: Block) {
    match k
    case Create(_, interval, _, _, _, _) => forall v {:trigger interval(v)} :: interval(v).0 >= 0.0
    case Queue(_, timeout, _, _) => timeout.Some? ==> forall v, r {:trigger timeout.value.delay.eval(v, r)} ::
      timeout.value.delay.eval(v, r).0 >= 0.0
    case Delay(duration, _, _, _) => forall v, r {:trigger duration.eval(v, r)} :: duration.eval(v, r).0 >= 0.0
    case _ => true
  }

  // ---------- handling only adds events, none before the clock ----------

  ghost predicate NotBefore(es: seq<Event<Action>>, from: nat, time: real) {
    forall i: nat :: from <= i < |es| ==> es[i].time >= time
  }

  ghost predicate Extends(s: State, s': State) {
    s'.clock == s.clock && s.pending <= s'.pending && NotBefore(s'.pending, |s.pending|, s.clock)
  }

  ghost function Extending(): Relation {
    (s: State, s': State) => Extends(s, s')
  }

  lemma ExtendsComposes(s: State, t: State, u: State)
    requires Extends(s, t) && Extends(t, u)
    ensures Extends(s, u)
  {
    forall i: nat | |s.pending| <= i < |u.pending|
      ensures u.pending[i].time >= s.clock
    {
      assert i < |t.pending| ==> u.pending[i] == t.pending[i];
    }
  }

  lemma AdmissionExtends(m: Model, s: State, b: BlockId, ref: EntityRef)
    requires NonNegative(m) && Ready(m, s, b, ref) && IsQueue(m, b) && Ready(m, CountEnter(s, b), b, ref)
    ensures Extends(s, Admit(m, CountEnter(s, b), b, ref).st)
  {
    assert BlockNonNegative(m.blocks[b]);
  }

  lemma ServiceExtends(m: Model, s: State, b: BlockId, ref: EntityRef)
    requires NonNegative(m) && Ready(m, s, b, ref) && m.blocks[b].Delay?
    ensures Extends(s, EnterDelay(m, s, b, ref).st)
  {
    assert BlockNonNegative(m.blocks[b]);
  }

  lemma ExtendingQueues(m: Model)
    requires NonNegative(m)
    ensures QueueSteps(m, Extending())
  {
    forall s, b: nat, ref | Ready(m, s, b, ref) && IsQueue(m, b) && Ready(m, CountEnter(s, b), b, ref)
      ensures Extends(s, Admit(m, CountEnter(s, b), b, ref).st)
    {
      AdmissionExtends(m, s, b, ref);
    }
    forall s, t, u | Extends(s, t) && Extends(t, u)
      ensures Extends(s, u)
    {
      ExtendsComposes(s, t, u);
    }
  }

  lemma ExtendingPlaces(m: Model)
    requires NonNegative(m)
    ensures HoldSteps(m, Extending()) && PlaceSteps(m, Extending())
  {
    forall s, b: nat, ref | Ready(m, s, b, ref) && m.blocks[b].Delay?
      ensures Extends(s, EnterDelay(m, s, b, ref).st)
    {
      ServiceExtends(m, s, b, ref);
    }
  }

  lemma ExtendingIsClosed(m: Model)
    requires NonNegative(m)
    ensures Closed(m, Extending())
  {
    forall s, t, u | Extends(s, t) && Extends(t, u)
      ensures Extends(s, u)
    {
      ExtendsComposes(s, t, u);
    }
    ExtendingQueues(m);
    ExtendingPlaces(m);
  }

  lemma ExtendingEvents(m: Model, b: BlockId)
    requires NonNegative(m)
    ensures CreateSteps(m, Extending()) && ExpirySteps(m, Extending())
    ensures ArrivalSteps(m, Extending(), b) && LeaveSteps(m, Extending(), b)
  {
    assert b < |m.blocks| ==> BlockNonNegative(m.blocks[b]);
  }

  lemma HandlingExtends(m: Model, s: State, a: Action)
    requires Linked(m) && NonNegative(m) && Fits(m, s) && ActionFits(m, s, a)
    ensures Extends(s, Handle(m, s, a))
  {
    ExtendingIsClosed(m);
    ExtendingEvents(m, a.block);
    HandlingSteps(m, Extending(), s, a);
  }

  /** A turn removes the one event it handles and adds only events that are not in the past. */
  lemma TurnHandlesOneEvent(m: Model, s: State, i: nat)
    requires Linked(m) && NonNegative(m) && Fits(m, s) && i < |s.pending| && EventFits(m, s, s.pending[i])
    ensures var s' := Step(m, s, i);
            && s'.clock == s.pending[i].time
            && RemoveAt(s.pending, i) <= s'.pending
            && NotBefore(s'.pending, |s.pending| - 1, s'.clock)
  {
    HandlingExtends(m, Take(m, s, i), s.pending[i].handler.action);
  }

  ghost predicate Ahead(s: State) {
    s.clock >= 0.0 && NotBefore(s.pending, 0, s.clock)
  }

  lemma TurnStaysAhead(m: Model, s: State, i: nat)
    requires Linked(m) && NonNegative(m) && Fits(m, s) && Next(s, i) && Ahead(s)
    ensures Ahead(Step(m, s, i)) && Step(m, s, i).clock >= s.clock
  {
    assert EventFits(m, s, s.pending[i]);
    TurnHandlesOneEvent(m, s, i);
    var s' := Step(m, s, i);
    var kept := RemoveAt(s.pending, i);
    forall j: nat | j < |s'.pending|
      ensures s'.pending[j].time >= s'.clock
    {
      if j < |kept| {
        assert s'.pending[j] == kept[j];
        assert kept[j] in s.pending;
      }
    }
  }

  lemma TurnClock(m: Model, s: State, s': State)
    requires Turn(m, s, s') && NonNegative(m) && Ahead(s)
    ensures s.clock <= s'.clock
  {
    var i: nat :| Next(s, i) && s' == Step(m, s, i);
    TurnStaysAhead(m, s, i);
  }

  lemma {:induction false} StartExtends(m: Model, s: State, b: nat)
    requires Linked(m) && NonNegative(m) && Fits(m, s) && b <= |m.blocks|
    ensures Extends(s, StartFrom(m, s, b))
    decreases |m.blocks| - b
  {
    if b < |m.blocks| {
      if !m.blocks[b].Create? {
        StartExtends(m, s, b + 1);
      } else if m.blocks[b].immediately {
        HandlingExtends(m, s, Arrival(b));
        StartExtends(m, HandleArrival(m, s, b), b + 1);
        ExtendsComposes(s, HandleArrival(m, s, b), StartFrom(m, s, b));
      } else {
        ExtendingEvents(m, b);
        assert Extending()(s, ScheduleArrival(m, s, b));
        StartExtends(m, ScheduleArrival(m, s, b), b + 1);
        ExtendsComposes(s, ScheduleArrival(m, s, b), StartFrom(m, s, b));
      }
    }
  }

  /** At every event boundary, also the last, all pending events are at or after the clock; the
      answer of the empty queue, with its time of -1, can never be taken for one of them. */
  lemma {:induction false} PendingIsAhead(m: Model, run: seq<State>)
    requires IsRun(m, run) && NonNegative(m)
    ensures var s := run[|run| - 1];
            Ahead(s) && forall i: nat :: i < |s.pending| ==> s.pending[i].time != Sentinel<Action>().time
    decreases |run|
  {
    var n := |run| - 1;
    if n == 0 {
      var vars, rng := Beginning(m, run);
      StartExtends(m, Initial(m, vars, rng), 0);
    } else {
      var i := LastTurn(m, run);
      PendingIsAhead(m, run[..n]);
      TurnStaysAhead(m, run[n - 1], i);
    }
  }

  lemma NextClock(m: Model, run: seq<State>, k: nat)
    requires IsRun(m, run) && NonNegative(m) && k + 1 < |run|
    ensures run[k].clock <= run[k + 1].clock
  {
    PrefixesAreRuns(m, run, k);
    PendingIsAhead(m, run[..k + 1]);
    assert TurnAt(m, run, k);
    TurnClock(m, run[k], run[k + 1]);
  }

  /** The clock never goes back, so events are handled in the order of their times. */
  lemma {:induction false} ClockNeverGoesBack(m: Model, run: seq<State>, j: nat, k: nat)
    requires IsRun(m, run) && NonNegative(m) && j <= k < |run|
    ensures run[j].clock <= run[k].clock
    decreases k
  {
    if j < k {
      ClockNeverGoesBack(m, run, j, k - 1);
      NextClock(m, run, k - 1);
    }
  }

  // ---------- arrivals ----------

  function ArrivalAt(c: BlockId): Event<Action> -> int {
    (e: Event<Action>) => if e.handler.Run? && e.handler.action.Arrival? && e.handler.action.block == c then 1 else 0
  }

  function Arrivals(s: State, c: BlockId): int {
    Sum(s.pending, ArrivalAt(c))
  }

  function KeepingArrivals(c: BlockId): Relation {
    (s: State, s': State) => Arrivals(s', c) == Arrivals(s, c)
  }

  lemma ScheduledArrivals(s: State, d: real, a: Action, c: BlockId)
    ensures Arrivals(Schedule(s, d, a), c) == Arrivals(s, c) + if a == Arrival(c) then 1 else 0
  {
    SumSnoc(s.pending, Event(s.clock + d, Run(a)), ArrivalAt(c));
  }

  lemma AdmissionKeepsArrivals(m: Model, s: State, b: BlockId, ref: EntityRef, c: BlockId)
    requires Ready(m, s, b, ref) && IsQueue(m, b) && Ready(m, CountEnter(s, b), b, ref)
    ensures Arrivals(Admit(m, CountEnter(s, b), b, ref).st, c) == Arrivals(s, c)
  {
    var s1 := CountEnter(s, b);
    if m.blocks[b].timeout.Some? {
      var t := m.blocks[b].timeout.value;
      var (delay, rng) := t.delay.eval(Look(s1), ref);
      ScheduledArrivals(Push(s1.(rng := rng), b, ref), delay, Timeout(b, s1.blocks[b].total), c);
    }
  }

  lemma ServiceKeepsArrivals(m: Model, s: State, b: BlockId, ref: EntityRef, c: BlockId)
    requires Ready(m, s, b, ref) && m.blocks[b].Delay?
    ensures Arrivals(EnterDelay(m, s, b, ref).st, c) == Arrivals(s, c)
  {
    var (full, s0) := AtCapacity(s, m.blocks[b].capacity, s.blocks[b].busy);
    var (duration, rng) := m.blocks[b].duration.eval(Look(s0), ref);
    ScheduledArrivals(Occupy(s0.(rng := rng), b), duration, Completion(b, ref), c);
  }

  lemma KeepingArrivalsIsClosed(m: Model, c: BlockId)
    ensures Closed(m, KeepingArrivals(c))
  {
    var rel := KeepingArrivals(c);
    forall s, b: nat, ref | Ready(m, s, b, ref) && IsQueue(m, b) && Ready(m, CountEnter(s, b), b, ref)
      ensures rel(s, Admit(m, CountEnter(s, b), b, ref).st)
    {
      AdmissionKeepsArrivals(m, s, b, ref, c);
    }
    forall s, b: nat, ref | Ready(m, s, b, ref) && m.blocks[b].Delay?
      ensures rel(s, EnterDelay(m, s, b, ref).st)
    {
      ServiceKeepsArrivals(m, s, b, ref, c);
    }
  }

  lemma KeepingArrivalsEvents(m: Model, c: BlockId, b: BlockId)
    ensures CreateSteps(m, KeepingArrivals(c)) && ExpirySteps(m, KeepingArrivals(c))
            && LeaveSteps(m, KeepingArrivals(c), b)
  {
  }

  /** Handling an arrival schedules the next one of the same CREATE, and of no other. */
  lemma ArrivalReschedules(m: Model, s: State, b: BlockId, c: BlockId)
    requires Linked(m) && Fits(m, s) && b < |m.blocks| && m.blocks[b].Create?
    ensures !HandleArrival(m, s, b).stop ==>
              Arrivals(HandleArrival(m, s, b), c) == Arrivals(s, c) + if b == c then 1 else 0
    ensures Arrivals(ScheduleArrival(m, s, b), c) == Arrivals(s, c) + if b == c then 1 else 0
  {
    KeepingArrivalsIsClosed(m, c);
    KeepingArrivalsEvents(m, c, b);
    var (n, rng) := m.blocks[b].batch(Look(s));
    PlainFits(m, s, s.(rng := rng));
    GenerateSteps(m, KeepingArrivals(c), s.(rng := rng), b, n);
    var s1 := Generate(m, s.(rng := rng), b, n).0;
    Rescheduled(m, s1, b, c);
    Rescheduled(m, s, b, c);
  }

  lemma Rescheduled(m: Model, s: State, b: BlockId, c: BlockId)
    requires Linked(m) && Fits(m, s) && b < |m.blocks| && m.blocks[b].Create?
    ensures Arrivals(ScheduleArrival(m, s, b), c) == Arrivals(s, c) + if b == c then 1 else 0
  {
    var (interval, rng) := m.blocks[b].interval(Look(s));
    ScheduledArrivals(s.(rng := rng), interval, Arrival(b), c);
  }

  lemma OtherHandlingKeepsArrivals(m: Model, s: State, a: Action, c: BlockId)
    requires Linked(m) && Fits(m, s) && ActionFits(m, s, a) && !a.Arrival?
    ensures Arrivals(Handle(m, s, a), c) == Arrivals(s, c)
  {
    KeepingArrivalsIsClosed(m, c);
    KeepingArrivalsEvents(m, c, a.block);
    HandlingSteps(m, KeepingArrivals(c), s, a);
  }

  lemma TurnKeepsArrivals(m: Model, s: State, i: nat, c: BlockId)
    requires Linked(m) && Fits(m, s) && i < |s.pending| && EventFits(m, s, s.pending[i])
    ensures !Step(m, s, i).stop ==> Arrivals(Step(m, s, i), c) == Arrivals(s, c)
  {
    hide HandleArrival, HandleCompletion, HandleTimeout, Sum, Fits, Linked;
    var a, s1 := s.pending[i].handler.action, Take(m, s, i);
    SumRemoveAt(s.pending, i, ArrivalAt(c));
    if a.Arrival? {
      ArrivalReschedules(m, s1, a.block, c);
    } else {
      OtherHandlingKeepsArrivals(m, s1, a, c);
    }
  }

  lemma {:induction false} StartSchedulesArrivals(m: Model, s: State, b: nat, c: BlockId)
    requires Linked(m) && Fits(m, s) && b <= |m.blocks| && c < |m.blocks| && m.blocks[c].Create?
    ensures !StartFrom(m, s, b).stop ==> Arrivals(StartFrom(m, s, b), c) == Arrivals(s, c) + if b <= c then 1 else 0
    decreases |m.blocks| - b
  {
    if b < |m.blocks| {
      if !m.blocks[b].Create? {
        StartSchedulesArrivals(m, s, b + 1, c);
      } else {
        ArrivalReschedules(m, s, b, c);
        StartSchedulesArrivals(m, if m.blocks[b].immediately then HandleArrival(m, s, b)
          else ScheduleArrival(m, s, b), b + 1, c);
      }
    }
  }

  /** While the simulation is not stopped every CREATE has exactly one pending arrival. */
  lemma {:induction false} OneArrivalPending(m: Model, run: seq<State>, c: BlockId)
    requires IsRun(m, run) && c < |m.blocks| && m.blocks[c].Create?
    ensures !run[|run| - 1].stop ==> Arrivals(run[|run| - 1], c) == 1
    decreases |run|
  {
    var n := |run| - 1;
    if n == 0 {
      var vars, rng := Beginning(m, run);
      StartSchedulesArrivals(m, Initial(m, vars, rng), 0, c);
    } else {
      var i := LastTurn(m, run);
      OneArrivalPending(m, run[..n], c);
      TurnKeepsArrivals(m, run[n - 1], i, c);
    }
  }
}
