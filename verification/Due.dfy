/** When scheduled events are due: each at the clock of the turn that schedules it plus a value that
    the expression of its own block has at that moment. So an entity in a queue with timeout c is
    never kept waiting longer than c, and none leaves by next_timeout earlier. */
module Due {
  import opened EventQueues
  import opened Sums
  import opened SimModel
  import opened Semantics
  import opened Potentials
  import opened Steps
  import opened Runs
  import opened Timeline
  import opened History

  // ---------- relations that every step of a turn is in ----------

  ghost predicate EveryStep(m: Model, rel: Relation) {
    && Closed(m, rel) && CreateSteps(m, rel) && ExpirySteps(m, rel)
    && forall b: nat {:trigger ArrivalSteps(m, rel, b)} :: ArrivalSteps(m, rel, b) && LeaveSteps(m, rel, b)
  }

  lemma TurnSteps(m: Model, rel: Relation, s: State, i: nat)
    requires EveryStep(m, rel) && Linked(m) && Fits(m, s) && i < |s.pending| && EventFits(m, s, s.pending[i])
    ensures rel(Take(m, s, i), Step(m, s, i))
  {
    hide CreateSteps, ExpirySteps, ArrivalSteps, LeaveSteps;
    var a, s1 := s.pending[i].handler.action, Take(m, s, i);
    assert ArrivalSteps(m, rel, a.block);
    HandlingSteps(m, rel, s1, a);
    var s2 := Handle(m, s1, a);
    assert SameFlow(s2, CheckStopRule(m, s2));
    assert rel(s2, CheckStopRule(m, s2));
  }

  lemma {:induction false} StartSteps(m: Model, rel: Relation, s: State, b: nat)
    requires EveryStep(m, rel) && Linked(m) && Fits(m, s) && b <= |m.blocks|
    ensures rel(s, StartFrom(m, s, b))
    decreases |m.blocks| - b
  {
    hide CreateSteps, ExpirySteps, LeaveSteps;
    if b == |m.blocks| {
      QuietIsReflexive(m, rel);
    } else if !m.blocks[b].Create? {
      StartSteps(m, rel, s, b + 1);
    } else {
      assert ArrivalSteps(m, rel, b);
      ArrivalHandlingSteps(m, rel, s, b);
      var s1 := if m.blocks[b].immediately then HandleArrival(m, s, b) else ScheduleArrival(m, s, b);
      StartSteps(m, rel, s1, b + 1);
      assert rel(s, s1) && rel(s1, StartFrom(m, s1, b + 1));
    }
  }

  // ---------- due times ----------

  /** e is due when the expression of its block says that, evaluated at time clock. */
  ghost predicate DueFrom(m: Model, clock: real, e: Event<Action>) {
    && e.handler.Run? && e.handler.action.block < |m.blocks|
    && var k := m.blocks[e.handler.action.block];
       match e.handler.action
       case Arrival(_) => k.Create? && exists v: View :: v.clock == clock && e.time == clock + k.interval(v).0
       case Completion(_, ref) =>
         k.Delay? && exists v: View :: v.clock == clock && e.time == clock + k.duration.eval(v, ref).0
       case Timeout(_, _) =>
         && k.Queue? && k.timeout.Some?
         && exists v: View, ref: EntityRef ::
              v.clock == clock && e.time == clock + k.timeout.value.delay.eval(v, ref).0
  }

  ghost predicate AddsDue(m: Model, s: State, s': State) {
    && s'.clock == s.clock && s.pending <= s'.pending
    && forall i: nat :: |s.pending| <= i < |s'.pending| ==> DueFrom(m, s.clock, s'.pending[i])
  }

  ghost function AddingDue(m: Model): Relation {
    (s: State, s': State) => AddsDue(m, s, s')
  }

  lemma AddsDueComposes(m: Model, s: State, t: State, u: State)
    requires AddsDue(m, s, t) && AddsDue(m, t, u)
    ensures AddsDue(m, s, u)
  {
    hide DueFrom;
    forall i: nat | |s.pending| <= i < |u.pending|
      ensures DueFrom(m, s.clock, u.pending[i])
    {
      if i < |t.pending| {
        assert u.pending[i] == t.pending[i];
      }
    }
  }

  lemma OneMoreIsDue(m: Model, s: State, s': State, e: Event<Action>)
    requires s'.clock == s.clock && s'.pending == s.pending + [e] && DueFrom(m, s.clock, e)
    ensures AddsDue(m, s, s')
  {
    hide DueFrom;
  }

  lemma AdmissionAddsDue(m: Model, s: State, b: BlockId, ref: EntityRef)
    requires Ready(m, s, b, ref) && IsQueue(m, b) && Ready(m, CountEnter(s, b), b, ref)
    ensures AddsDue(m, s, Admit(m, CountEnter(s, b), b, ref).st)
  {
    var s1, t := CountEnter(s, b), m.blocks[b].timeout;
    if t.Some? && GuardHolds(t.value.delay.entity, ref) {
      var (delay, rng) := t.value.delay.eval(Look(s1), ref);
      var e := Event(s.clock + delay, Run(Timeout(b, s.blocks[b].total)));
      assert Look(s1).clock == s.clock;
      OneMoreIsDue(m, s, Admit(m, s1, b, ref).st, e);
    }
  }

  lemma ServiceAddsDue(m: Model, s: State, b: BlockId, ref: EntityRef)
    requires Ready(m, s, b, ref) && m.blocks[b].Delay?
    ensures AddsDue(m, s, EnterDelay(m, s, b, ref).st)
  {
    var (full, s0) := AtCapacity(s, m.blocks[b].capacity, s.blocks[b].busy);
    if !full && GuardHolds(m.blocks[b].duration.entity, ref) {
      var (duration, rng) := m.blocks[b].duration.eval(Look(s0), ref);
      assert Look(s0).clock == s.clock;
      OneMoreIsDue(m, s, EnterDelay(m, s, b, ref).st, Event(s.clock + duration, Run(Completion(b, ref))));
    }
  }

  lemma NextArrivalIsDue(m: Model, s: State, c: BlockId)
    requires Linked(m) && Fits(m, s) && c < |m.blocks| && m.blocks[c].Create?
    ensures AddsDue(m, s, ScheduleArrival(m, s, c))
  {
    var (interval, rng) := m.blocks[c].interval(Look(s));
    assert Look(s).clock == s.clock;
    OneMoreIsDue(m, s, ScheduleArrival(m, s, c), Event(s.clock + interval, Run(Arrival(c))));
  }

  lemma AddingDueIsClosed(m: Model)
    ensures Closed(m, AddingDue(m))
  {
    hide DueFrom;
    forall s, t, u | AddsDue(m, s, t) && AddsDue(m, t, u)
      ensures AddsDue(m, s, u)
    {
      AddsDueComposes(m, s, t, u);
    }
    forall s, b: nat, ref | Ready(m, s, b, ref) && IsQueue(m, b) && Ready(m, CountEnter(s, b), b, ref)
      ensures AddsDue(m, s, Admit(m, CountEnter(s, b), b, ref).st)
    {
      AdmissionAddsDue(m, s, b, ref);
    }
    forall s, b: nat, ref | Ready(m, s, b, ref) && m.blocks[b].Delay?
      ensures AddsDue(m, s, EnterDelay(m, s, b, ref).st)
    {
      ServiceAddsDue(m, s, b, ref);
    }
  }

  lemma AddingDueEvents(m: Model, b: BlockId)
    ensures CreateSteps(m, AddingDue(m)) && ExpirySteps(m, AddingDue(m))
    ensures ArrivalSteps(m, AddingDue(m), b) && LeaveSteps(m, AddingDue(m), b)
  {
    hide DueFrom;
    forall s | Linked(m) && Fits(m, s) && b < |m.blocks| && m.blocks[b].Create?
      ensures AddsDue(m, s, ScheduleArrival(m, s, b))
    {
      NextArrivalIsDue(m, s, b);
    }
  }

  lemma AddingDueEverywhere(m: Model)
    ensures EveryStep(m, AddingDue(m))
  {
    hide Closed, CreateSteps, ExpirySteps, ArrivalSteps, LeaveSteps;
    AddingDueIsClosed(m);
    AddingDueEvents(m, 0);
    forall b: nat
      ensures ArrivalSteps(m, AddingDue(m), b) && LeaveSteps(m, AddingDue(m), b)
    {
      AddingDueEvents(m, b);
    }
  }

  /** The events that the turn leading to boundary k scheduled; at boundary 0, those of startup. */
  function ScheduledAt(run: seq<State>, k: nat): seq<Event<Action>>
    requires k < |run|
  {
    if k == 0 then run[0].pending else Added(run[k - 1], run[k])
  }

  /** The turn from s to s' handles the event at position i. */
  ghost predicate Takes(m: Model, s: State, s': State, i: nat) {
    Linked(m) && Fits(m, s) && Next(s, i) && s' == Step(m, s, i)
  }

  ghost predicate Handles(m: Model, s: State, s': State, a: Action) {
    exists i: nat :: Takes(m, s, s', i) && s.pending[i].handler == Run(a)
  }

  lemma BoundaryTurn(m: Model, run: seq<State>, k: nat) returns (i: nat)
    requires IsRun(m, run) && 0 < k < |run|
    ensures IsRun(m, run[..k + 1]) && Takes(m, run[k - 1], run[k], i) && !run[k - 1].stop
  {
    hide Step;
    PrefixesAreRuns(m, run, k);
    i := LastTurn(m, run[..k + 1]);
  }

  lemma StartIsDue(m: Model, run: seq<State>, i: nat)
    requires IsRun(m, run) && i < |run[0].pending|
    ensures DueFrom(m, run[0].clock, run[0].pending[i])
  {
    hide DueFrom, EveryStep, StartFrom;
    AddingDueEverywhere(m);
    var vars, rng := Beginning(m, run);
    StartSteps(m, AddingDue(m), Initial(m, vars, rng), 0);
  }

  lemma TurnIsDue(m: Model, prev: State, next: State, j: nat, i: nat)
    requires Takes(m, prev, next, j) && i < |Added(prev, next)|
    ensures DueFrom(m, next.clock, Added(prev, next)[i])
  {
    assert EventFits(m, prev, prev.pending[j]);
    hide DueFrom, EveryStep, Step, Fits;
    AddingDueEverywhere(m);
    TurnSteps(m, AddingDue(m), prev, j);
    AddedIsDue(m, prev, Take(m, prev, j), next, j, i);
  }

  lemma AddedIsDue(m: Model, prev: State, taken: State, next: State, j: nat, i: nat)
    requires j < |prev.pending| && taken.pending == RemoveAt(prev.pending, j) && AddsDue(m, taken, next)
    requires i < |Added(prev, next)|
    ensures DueFrom(m, next.clock, Added(prev, next)[i])
  {
    hide DueFrom;
    assert Added(prev, next)[i] == next.pending[|taken.pending| + i];
  }

  /** Every event ever scheduled is due at the clock of its turn plus what its expression said then. */
  lemma ScheduledIsDue(m: Model, run: seq<State>, k: nat, i: nat)
    requires IsRun(m, run) && k < |run| && i < |ScheduledAt(run, k)|
    ensures DueFrom(m, run[k].clock, ScheduledAt(run, k)[i])
  {
    hide DueFrom, IsRun, Takes, Added;
    if k == 0 {
      StartIsDue(m, run, i);
    } else {
      var j := BoundaryTurn(m, run, k);
      TurnIsDue(m, run[k - 1], run[k], j, i);
    }
  }

  /** Every pending event was scheduled in some turn and is due at the clock of that turn plus what
      its expression said then. */
  lemma {:induction false} PendingIsDue(m: Model, run: seq<State>, i: nat) returns (k: nat)
    requires IsRun(m, run) && i < |run[|run| - 1].pending|
    ensures k < |run|
    ensures var e := run[|run| - 1].pending[i]; e in ScheduledAt(run, k) && DueFrom(m, run[k].clock, e)
    decreases |run|
  {
    hide DueFrom, Step;
    var n := |run| - 1;
    var e := run[n].pending[i];
    if n == 0 {
      k := 0;
    } else {
      var j := LastTurn(m, run);
      TurnGrows(m, run[n - 1], j);
      var kept := RemoveAt(run[n - 1].pending, j);
      if i < |kept| {
        assert e == kept[i] == run[n - 1].pending[if i < j then i else i + 1];
        k := PendingIsDue(m, run[..n], if i < j then i else i + 1);
        assert ScheduledAt(run, k) == ScheduledAt(run[..n], k);
      } else {
        k := n;
        assert e == Added(run[n - 1], run[n])[i - |kept|];
      }
    }
    TurnSchedulesDue(m, run, k, e);
  }

  lemma TurnSchedulesDue(m: Model, run: seq<State>, k: nat, e: Event<Action>)
    requires IsRun(m, run) && k < |run| && e in ScheduledAt(run, k)
    ensures DueFrom(m, run[k].clock, e)
  {
    hide DueFrom, IsRun, ScheduledAt;
    var i: nat :| i < |ScheduledAt(run, k)| && ScheduledAt(run, k)[i] == e;
    ScheduledIsDue(m, run, k, i);
  }

  // ---------- services and arrivals ----------

  ghost predicate ConstantDuration(k: Block, c: real) {
    k.Delay? && forall v, r {:trigger k.duration.eval(v, r)} :: k.duration.eval(v, r).0 == c
  }

  /** A DELAY with constant duration c serves for exactly c: the turn that completes a service runs at
      the clock of the turn that began it plus c. */
  lemma ServiceTakes(m: Model, run: seq<State>, c: real, i: nat) returns (k: nat)
    requires IsRun(m, run) && |run| > 1 && Takes(m, run[|run| - 2], run[|run| - 1], i)
    requires var e := run[|run| - 2].pending[i];
             && e.handler.Run? && e.handler.action.Completion? && e.handler.action.block < |m.blocks|
             && ConstantDuration(m.blocks[e.handler.action.block], c)
    ensures k < |run| - 1
    ensures run[|run| - 2].pending[i] in ScheduledAt(run, k) && run[|run| - 1].clock == run[k].clock + c
  {
    hide Step;
    var n := |run| - 1;
    var e := run[n - 1].pending[i];
    PrefixIsRun(m, run);
    k := PendingIsDue(m, run[..n], i);
    assert ScheduledAt(run, k) == ScheduledAt(run[..n], k);
    assert EventFits(m, run[n - 1], e);
    TurnGrows(m, run[n - 1], i);
  }

  ghost predicate ConstantInterval(k: Block, c: real) {
    k.Create? && forall v {:trigger k.interval(v)} :: k.interval(v).0 == c
  }

  /** e is the one pending arrival of CREATE b. */
  ghost predicate NextArrival(s: State, b: BlockId, e: Event<Action>) {
    && e in s.pending && e.handler == Run(Arrival(b))
    && forall x <- s.pending :: x.handler == Run(Arrival(b)) ==> x == e
  }

  lemma {:induction false} SumCovers<T>(xs: seq<T>, f: T -> int, i: nat)
    requires i < |xs| && forall x :: f(x) >= 0
    ensures Sum(xs, f) >= f(xs[i])
    decreases |xs|
  {
    var n := |xs| - 1;
    if i < n {
      SumCovers(xs[..n], f, i);
    } else {
      SumNonNegative(xs[..n], f);
    }
  }

  lemma {:induction false} SumNonNegative<T>(xs: seq<T>, f: T -> int)
    requires forall x :: f(x) >= 0
    ensures Sum(xs, f) >= 0
  {
    if xs != [] {
      SumNonNegative(xs[..|xs| - 1], f);
    }
  }

  lemma OneIsNext(s: State, b: BlockId, i: nat)
    requires i < |s.pending| && s.pending[i].handler == Run(Arrival(b)) && Arrivals(s, b) == 1
    ensures NextArrival(s, b, s.pending[i])
  {
    hide Sum;
    var rest := RemoveAt(s.pending, i);
    SumRemoveAt(s.pending, i, ArrivalAt(b));
    forall j: nat | j < |s.pending| && j != i
      ensures s.pending[j].handler != Run(Arrival(b))
    {
      var j' := if j < i then j else j - 1;
      assert rest[j'] == s.pending[j];
      SumCovers(rest, ArrivalAt(b), j');
    }
  }

  /** The turn that handles an arrival of CREATE b schedules the next one. */
  lemma ArrivalPlans(m: Model, run: seq<State>, b: BlockId, c: real, i: nat) returns (e: Event<Action>)
    requires IsRun(m, run) && |run| > 1 && b < |m.blocks| && ConstantInterval(m.blocks[b], c)
    requires Takes(m, run[|run| - 2], run[|run| - 1], i) && run[|run| - 2].pending[i].handler == Run(Arrival(b))
    requires !run[|run| - 1].stop
    ensures NextArrival(run[|run| - 1], b, e) && e.time == run[|run| - 1].clock + c
  {
    hide Step, Sum, Fits;
    var n := |run| - 1;
    var prev, s := run[n - 1], run[n];
    PrefixIsRun(m, run);
    OneArrivalPending(m, run[..n], b);
    OneIsNext(prev, b, i);
    OneArrivalPending(m, run, b);
    var j := ArrivalIsPending(s, b);
    OneIsNext(s, b, j);
    e := s.pending[j];
    StepAddsNext(m, run, b, i, j);
    TurnSchedulesDue(m, run, n, e);
  }

  lemma ArrivalIsPending(s: State, b: BlockId) returns (j: nat)
    requires Arrivals(s, b) == 1
    ensures j < |s.pending| && s.pending[j].handler == Run(Arrival(b))
  {
    if forall x :: x in s.pending ==> ArrivalAt(b)(x) == 0 {
      SumZero(s.pending, ArrivalAt(b));
    }
    var x :| x in s.pending && ArrivalAt(b)(x) != 0;
    j :| j < |s.pending| && s.pending[j] == x;
  }

  /** The arrival that was handled was the only one of b, so the one pending now has been added. */
  lemma StepAddsNext(m: Model, run: seq<State>, b: BlockId, i: nat, j: nat)
    requires |run| > 1 && Takes(m, run[|run| - 2], run[|run| - 1], i)
    requires NextArrival(run[|run| - 2], b, run[|run| - 2].pending[i])
    requires Arrivals(run[|run| - 2], b) == 1
    requires j < |run[|run| - 1].pending| && run[|run| - 1].pending[j].handler == Run(Arrival(b))
    ensures run[|run| - 1].pending[j] in ScheduledAt(run, |run| - 1)
  {
    hide Step, Sum, Fits;
    var n := |run| - 1;
    var prev, s := run[n - 1], run[n];
    var kept := RemoveAt(prev.pending, i);
    TurnGrowsOf(m, prev, i);
    if j < |kept| {
      assert s.pending[j] == kept[j];
      SumRemoveAt(prev.pending, i, ArrivalAt(b));
      SumCovers(kept, ArrivalAt(b), j);
    } else {
      assert s.pending[j] == Added(prev, s)[j - |kept|];
    }
  }

  lemma TurnGrowsOf(m: Model, s: State, i: nat)
    requires Linked(m) && Fits(m, s) && i < |s.pending|
    ensures RemoveAt(s.pending, i) <= Step(m, s, i).pending && Step(m, s, i).clock == s.pending[i].time
  {
    assert EventFits(m, s, s.pending[i]);
    TurnGrows(m, s, i);
  }

  /** A turn that handles another event leaves the next arrival of CREATE b as it was. */
  lemma OtherTurnKeepsNext(m: Model, run: seq<State>, b: BlockId, i: nat, e: Event<Action>)
    requires IsRun(m, run) && |run| > 1 && b < |m.blocks| && m.blocks[b].Create?
    requires Takes(m, run[|run| - 2], run[|run| - 1], i) && run[|run| - 2].pending[i].handler != Run(Arrival(b))
    requires !run[|run| - 1].stop && NextArrival(run[|run| - 2], b, e)
    ensures NextArrival(run[|run| - 1], b, e)
  {
    hide Step, Sum, Fits;
    var n := |run| - 1;
    var prev, s := run[n - 1], run[n];
    TurnGrowsOf(m, prev, i);
    var kept := RemoveAt(prev.pending, i);
    var j: nat :| j < |prev.pending| && prev.pending[j] == e;
    var j' := if j < i then j else j - 1;
    assert s.pending[j'] == kept[j'] == e;
    OneArrivalPending(m, run, b);
    OneIsNext(s, b, j');
  }

  /** The arrival planned at boundary j is the next one of CREATE b as long as no other is handled. */
  lemma {:induction false} NextStays(m: Model, run: seq<State>, b: BlockId, j: nat, k: nat, e: Event<Action>)
    requires IsRun(m, run) && b < |m.blocks| && m.blocks[b].Create? && 0 < j <= k < |run| - 1
    requires NextArrival(run[j], b, e)
    requires forall x: nat :: j < x <= k ==> !Handles(m, run[x - 1], run[x], Arrival(b))
    ensures NextArrival(run[k], b, e)
    decreases k
  {
    hide NextArrival, Fits, Step;
    if j < k {
      NextStays(m, run, b, j, k - 1, e);
      var next := BoundaryTurn(m, run, k + 1);
      var i := BoundaryTurn(m, run, k);
      assert !Handles(m, run[k - 1], run[k], Arrival(b));
      OtherTurnKeepsNext(m, run[..k + 1], b, i, e);
    }
  }

  /** A CREATE with constant interval c arrives every c: two turns that handle arrivals of it, with none
      between them, are exactly c apart. */
  lemma ArrivalsApart(m: Model, run: seq<State>, b: BlockId, c: real, j: nat, k: nat)
    requires IsRun(m, run) && b < |m.blocks| && ConstantInterval(m.blocks[b], c) && 0 < j < k < |run|
    requires Handles(m, run[j - 1], run[j], Arrival(b)) && Handles(m, run[k - 1], run[k], Arrival(b))
    requires forall x: nat :: j < x < k ==> !Handles(m, run[x - 1], run[x], Arrival(b))
    ensures run[k].clock == run[j].clock + c
  {
    hide ConstantInterval, Fits, Step;
    var i: nat :| Takes(m, run[j - 1], run[j], i) && run[j - 1].pending[i].handler == Run(Arrival(b));
    var l: nat :| Takes(m, run[k - 1], run[k], l) && run[k - 1].pending[l].handler == Run(Arrival(b));
    var x := BoundaryTurn(m, run, j);
    var y := BoundaryTurn(m, run, j + 1);
    var e := ArrivalPlans(m, run[..j + 1], b, c, i);
    IsCreate(m.blocks[b], c);
    NextStays(m, run, b, j, k - 1, e);
    assert run[k - 1].pending[l] == e;
    TurnGrowsOf(m, run[k - 1], l);
  }

  lemma IsCreate(k: Block, c: real)
    requires ConstantInterval(k, c)
    ensures k.Create?
  {
  }
}
