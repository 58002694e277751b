/** A model in which a DELAY idles although a queue that feeds it is not empty. */
module Counterexamples {
  import opened Options
  import opened EventQueues
  import opened Sums
  import opened SimModel
  import opened Semantics
  import opened Potentials
  import opened Runs
  import opened Startup
  import opened WorkConservation
  import opened LinkedKernel
  import L = Linking
  import R = Reachability

  // ---------- the interpreter on the simplest blocks ----------

  lemma StartWithImmediate(m: Model, s: State, b: nat)
    requires Linked(m) && Fits(m, s) && b < |m.blocks| && m.blocks[b].Create? && m.blocks[b].immediately
    ensures StartFrom(m, s, b) == StartFrom(m, HandleArrival(m, s, b), b + 1)
  {
  }

  /** Exactly the first two blocks are CREATEs, and both are immediate. */
  ghost predicate StartsWithTwo(m: Model) {
    && |m.blocks| > 1
    && (forall a: nat :: a < 2 ==> m.blocks[a].Create? && m.blocks[a].immediately)
    && forall a: nat :: 2 <= a < |m.blocks| ==> !m.blocks[a].Create?
  }

  lemma {:induction false} StartsTwice(m: Model, s: State)
    requires Linked(m) && Fits(m, s) && StartsWithTwo(m)
    ensures StartFrom(m, s, 0) == HandleArrival(m, HandleArrival(m, s, 0), 1)
  {
    StartWithImmediate(m, s, 0);
    StartWithImmediate(m, HandleArrival(m, s, 0), 1);
    NothingToStart(m, HandleArrival(m, HandleArrival(m, s, 0), 1), 2);
  }

  lemma {:induction false} IntoPlainQueue(m: Model, s: State, b: BlockId, ref: EntityRef)
    requires Ready(m, s, b, ref) && m.blocks[b].Queue? && m.blocks[b].capacity.None? && m.blocks[b].timeout.None?
    ensures var s1 := Push(CountEnter(s, b), b, ref);
            Fits(m, s1) && Enter(m, s, b, ref) == Outcome(TryAdvance(m, s1, b).st, true)
  {
    CountFits(m, s, b);
    PushFits(m, CountEnter(s, b), b, ref);
  }

  lemma {:induction false} OfferHead(m: Model, s: State, b: BlockId)
    requires Linked(m) && Fits(m, s) && IsQueue(m, b) && s.blocks[b].waiting != []
    ensures Ready(m, s, m.blocks[b].next, s.blocks[b].waiting[0].ref)
    ensures var r := Enter(m, s, m.blocks[b].next, s.blocks[b].waiting[0].ref);
            TryAdvance(m, s, b) == if r.ok then Outcome(CountExit(DeleteHead(r.st, b), b), true)
              else Outcome(r.st, false)
  {
    assert BlockLinked(m, b) && QueueFits(s, s.blocks[b].waiting);
    Reach(m, s, m.blocks[b].next, s.blocks[b].waiting[0].ref);
  }

  ghost predicate Elsewhere(s: State, s': State, b: BlockId) {
    |s'.blocks| == |s.blocks| && forall a: nat :: a < |s.blocks| && a != b ==> s'.blocks[a] == s.blocks[a]
  }

  /** An empty queue only lends its place: the entity is offered on, and stays if it is refused. */
  lemma {:induction false} ThroughEmptyQueue(m: Model, s: State, b: BlockId, ref: EntityRef)
    requires Ready(m, s, b, ref) && m.blocks[b].Queue? && m.blocks[b].capacity.None? && m.blocks[b].timeout.None?
             && s.blocks[b].waiting == []
    ensures var s1 := Push(CountEnter(s, b), b, ref);
            && Ready(m, s1, m.blocks[b].next, ref) && Elsewhere(s, s1, b)
            && s1.clock == s.clock && s1.stop == s.stop && s1.pending == s.pending && |s1.blocks[b].waiting| == 1
                 && s1.blocks[b].waiting[0].ref == ref
            && var offer, r := Enter(m, s1, m.blocks[b].next, ref), Enter(m, s, b, ref);
            && r.ok
            && (offer.ok ==>
                  && r.st.clock == offer.st.clock && r.st.stop == offer.st.stop && r.st.pending == offer.st.pending
                             && r.st.blocks[b].waiting == [] && Elsewhere(offer.st, r.st, b))
            && (!offer.ok ==> r.st == offer.st)
  {
    IntoPlainQueue(m, s, b, ref);
    var s1 := Push(CountEnter(s, b), b, ref);
    OfferHead(m, s1, b);
    HeadStaysDuringOffer(m, s1, b);
  }

  /** The DELAY d took the entity, perhaps by way of the block via. */
  ghost predicate Served(s: State, r: Outcome, d: BlockId, via: BlockId, duration: real, ref: EntityRef)
    requires d < |s.blocks|
  {
    && r.ok && r.st.clock == s.clock && r.st.stop == s.stop
    && r.st.pending == s.pending + [Event(s.clock + duration, Run(Completion(d, ref)))]
    && |r.st.blocks| == |s.blocks| && r.st.blocks[d].busy == 1
    && forall a: nat :: a < |s.blocks| && a != d && a != via ==> r.st.blocks[a] == s.blocks[a]
  }

  lemma {:induction false} ServedThroughQueue(m: Model, s: State, q: BlockId, ref: EntityRef, d: BlockId,
                                              via: BlockId, duration: real)
    requires Ready(m, s, q, ref) && m.blocks[q].Queue? && m.blocks[q].capacity.None? && m.blocks[q].timeout.None?
             && s.blocks[q].waiting == []
    requires d < |m.blocks| && d != q && via != q
    requires var s1 := Push(CountEnter(s, q), q, ref);
             Ready(m, s1, m.blocks[q].next, ref)
               && Served(s1, Enter(m, s1, m.blocks[q].next, ref), d, via, duration, ref)
    ensures var r := Enter(m, s, q, ref);
            && r.ok && r.st.clock == s.clock && r.st.stop == s.stop
            && r.st.pending == s.pending + [Event(s.clock + duration, Run(Completion(d, ref)))]
            && r.st.blocks[d].busy == 1 && r.st.blocks[q].waiting == []
            && forall a: nat :: a < |s.blocks| && a != d && a != via && a != q ==> r.st.blocks[a] == s.blocks[a]
  {
    ThroughEmptyQueue(m, s, q, ref);
  }

  // ---------- a DELAY idles beside its queue ----------

  const P: BlockId := 2
  const Q: BlockId := 3
  const FORK: BlockId := 4
  const D: BlockId := 5
  const E: BlockId := 6

  /** D wakes P before Q. The head of P may take the other branch, to E, which does not wake P. */
  function Detour(): Model {
    Model([EntityDesc([], []), EntityDesc([], [])], [], [],
          [Create(1, Always(100.0), true, Always(2), false, P),
           Create(2, Always(100.0), true, Always(2), false, Q),
           Queue(None, None, None, FORK),
           Queue(None, None, None, D),
           Branch([Case(IsEntity(2), D)], Some(E)),
           Delay(AlwaysFor(2.0), Some(Always(1)), [P, Q], 7),
           Delay(AlwaysFor(1.0), Some(Always(1)), [], 7),
           Terminate],
          None, [3, 3, 2, 1, 1, 0, 0, 0], 4)
  }

  /** The same, block by block. */
  ghost predicate IsDetour(m: Model) {
    && Linked(m) && |m.blocks| == 8 && |m.entities| == 2 && m.stopRule.None?
    && m.blocks[0] == Create(1, Always(100.0), true, Always(2), false, P)
    && m.blocks[1] == Create(2, Always(100.0), true, Always(2), false, Q)
    && m.blocks[P] == Queue(None, None, None, FORK)
    && m.blocks[Q] == Queue(None, None, None, D)
    && m.blocks[FORK] == Branch([Case(IsEntity(2), D)], Some(E))
    && m.blocks[D] == Delay(AlwaysFor(2.0), Some(Always(1)), [P, Q], 7)
    && m.blocks[E] == Delay(AlwaysFor(1.0), Some(Always(1)), [], 7)
    && m.blocks[7] == Terminate
  }

  lemma DetourIsLinked()
    ensures Linked(Detour())
  {
  }

  predicate HoldsOnly(ws: seq<Waiting>, who: Option<EntityRef>) {
    if who.None? then ws == [] else |ws| == 1 && ws[0].ref == who.value
  }

  /** Who waits in P and Q, how busy D and E are, and what is pending. */
  ghost predicate Shows(m: Model, s: State, inP: Option<EntityRef>, inQ: Option<EntityRef>, d: nat, e: nat,
                        pending: seq<Event<Action>>) {
    && IsDetour(m) && Fits(m, s) && !s.stop
    && HoldsOnly(s.blocks[P].waiting, inP) && HoldsOnly(s.blocks[Q].waiting, inQ)
    && s.blocks[D].busy == d && s.blocks[E].busy == e
    && s.pending == pending
  }

  lemma {:induction false} IntoFork(m: Model, s: State, ref: EntityRef)
    requires IsDetour(m) && Fits(m, s) && ValidRef(s, ref) && ref.typ == 1
    ensures Ready(m, s, FORK, ref)
    ensures var r := Enter(m, s, FORK, ref);
            if s.blocks[E].busy == 0 then Served(s, r, E, FORK, 1.0, ref) else r == Outcome(s, false)
  {
    Reach(m, s, FORK, ref);
    Reach(m, s, E, ref);
    assert s.(rng := s.rng) == s;
    assert Select(s, m.blocks[FORK].cases, ref) == (s, None);
    assert Choose(m, s, FORK, ref) == (s, Some(E));
    assert Enter(m, s, E, ref) == EnterDelay(m, s, E, ref);
    assert Enter(m, s, FORK, ref) == EnterBranch(m, s, FORK, ref);
  }

  lemma {:induction false} IntoD(m: Model, s: State, ref: EntityRef)
    requires IsDetour(m) && Fits(m, s) && ValidRef(s, ref)
    ensures Ready(m, s, D, ref)
    ensures var r := Enter(m, s, D, ref);
            if s.blocks[D].busy == 0 then Served(s, r, D, D, 2.0, ref) else r == Outcome(s, false)
  {
    Reach(m, s, D, ref);
    assert s.(rng := s.rng) == s;
  }

  function ServedByE(time: real, ref: EntityRef): Event<Action> {
    Event(time + 1.0, Run(Completion(E, ref)))
  }

  function ServedByD(time: real, ref: EntityRef): Event<Action> {
    Event(time + 2.0, Run(Completion(D, ref)))
  }

  lemma {:induction false} FirstIntoP(m: Model, s: State, ref: EntityRef, pending: seq<Event<Action>>)
    requires Shows(m, s, None, None, 0, 0, pending) && ValidRef(s, ref) && ref.typ == 1
    ensures Ready(m, s, P, ref)
    ensures var r := Enter(m, s, P, ref);
            r.ok && r.st.clock == s.clock && Shows(m, r.st, None, None, 0, 1, pending + [ServedByE(s.clock, ref)])
  {
    Reach(m, s, P, ref);
    ThroughEmptyQueue(m, s, P, ref);
    IntoFork(m, Push(CountEnter(s, P), P, ref), ref);
    ServedThroughQueue(m, s, P, ref, E, FORK, 1.0);
  }

  lemma {:induction false} SecondIntoP(m: Model, s: State, ref: EntityRef, pending: seq<Event<Action>>)
    requires Shows(m, s, None, None, 0, 1, pending) && ValidRef(s, ref) && ref.typ == 1
    ensures Ready(m, s, P, ref)
    ensures var r := Enter(m, s, P, ref);
            r.ok && r.st.clock == s.clock && Shows(m, r.st, Some(ref), None, 0, 1, pending)
  {
    Reach(m, s, P, ref);
    ThroughEmptyQueue(m, s, P, ref);
    IntoFork(m, Push(CountEnter(s, P), P, ref), ref);
  }

  lemma {:induction false} FirstIntoQ(m: Model, s: State, ref: EntityRef, inP: Option<EntityRef>,
                                      pending: seq<Event<Action>>)
    requires Shows(m, s, inP, None, 0, 1, pending) && ValidRef(s, ref)
    ensures Ready(m, s, Q, ref)
    ensures var r := Enter(m, s, Q, ref);
            r.ok && r.st.clock == s.clock && Shows(m, r.st, inP, None, 1, 1, pending + [ServedByD(s.clock, ref)])
  {
    Reach(m, s, Q, ref);
    ThroughEmptyQueue(m, s, Q, ref);
    IntoD(m, Push(CountEnter(s, Q), Q, ref), ref);
    ServedThroughQueue(m, s, Q, ref, D, D, 2.0);
  }

  lemma {:induction false} SecondIntoQ(m: Model, s: State, ref: EntityRef, inP: Option<EntityRef>,
                                       pending: seq<Event<Action>>)
    requires Shows(m, s, inP, None, 1, 1, pending) && ValidRef(s, ref)
    ensures Ready(m, s, Q, ref)
    ensures var r := Enter(m, s, Q, ref);
            r.ok && r.st.clock == s.clock && Shows(m, r.st, inP, Some(ref), 1, 1, pending)
  {
    Reach(m, s, Q, ref);
    ThroughEmptyQueue(m, s, Q, ref);
    IntoD(m, Push(CountEnter(s, Q), Q, ref), ref);
  }

  lemma MakeOne(m: Model, s: State, inP: Option<EntityRef>, inQ: Option<EntityRef>, d: nat, e: nat,
                pending: seq<Event<Action>>, c: BlockId)
    requires Shows(m, s, inP, inQ, d, e, pending) && c < 2
    ensures var (s1, ref) := Spawn(m, s, c);
            s1.clock == s.clock && Shows(m, s1, inP, inQ, d, e, pending) && ref.typ == c + 1 && ValidRef(s1, ref)
  {
  }

  lemma TwoPasses(m: Model, s: State, c: BlockId)
    requires Linked(m) && Fits(m, s) && c < |m.blocks| && m.blocks[c].Create?
    requires GenerateOne(m, s, c).1.None? && GenerateOne(m, GenerateOne(m, s, c).0, c).1.None?
    ensures Generate(m, s, c, 2) == GenerateOne(m, GenerateOne(m, s, c).0, c)
  {
    var body := BatchBody(m, c);
    var s1 := body(s).0;
    assert Passes(body, s1, 1) == body(s1);
  }

  lemma {:induction false} GoesThrough(m: Model, s: State, c: BlockId)
    requires Linked(m) && Fits(m, s) && c < |m.blocks| && m.blocks[c].Create?
    requires var (s1, ref) := Spawn(m, s, c);
             Ready(m, s1, m.blocks[c].next, ref) && Enter(m, s1, m.blocks[c].next, ref).ok
    ensures var (s1, ref) := Spawn(m, s, c);
            GenerateOne(m, s, c) == (CountExit(Enter(m, s1, m.blocks[c].next, ref).st, c), None)
  {
  }

  lemma ShowsMeans(m: Model, s: State, inP: Option<EntityRef>, inQ: Option<EntityRef>, d: nat, e: nat,
                   pending: seq<Event<Action>>)
    requires Shows(m, s, inP, inQ, d, e, pending)
    ensures IsDetour(m) && Linked(m) && Fits(m, s) && !s.stop
    ensures |m.blocks| == 8 && m.blocks[0].Create? && m.blocks[1].Create?
  {
  }

  lemma ArrivalIsScheduled(m: Model, s: State, inP: Option<EntityRef>, inQ: Option<EntityRef>, d: nat, e: nat,
                           pending: seq<Event<Action>>, c: BlockId)
    requires Shows(m, s, inP, inQ, d, e, pending) && c < 2
    ensures var s' := Schedule(s, 100.0, Arrival(c));
            && s'.clock == s.clock
            && Shows(m, s', inP, inQ, d, e, pending + [Event(s.clock + 100.0, Run(Arrival(c)))])
  {
  }

  /** Both creations of a batch went through, and the simulation goes on. */
  ghost predicate BothWent(m: Model, s: State, c: BlockId, s2: State)
    requires Linked(m) && Fits(m, s) && c < |m.blocks| && m.blocks[c].Create?
  {
    && GenerateOne(m, s, c).1.None?
    && GenerateOne(m, GenerateOne(m, s, c).0, c) == (s2, None)
    && !s2.stop
  }

  lemma TwoArrivals(m: Model, s: State, c: BlockId, s2: State)
    requires IsDetour(m) && Fits(m, s) && c < 2 && BothWent(m, s, c, s2)
    ensures HandleArrival(m, s, c) == Schedule(s2, 100.0, Arrival(c))
  {
    hide GenerateOne, Linked, Fits;
    TwoPasses(m, s, c);
    assert s.(rng := s.rng) == s && s2.(rng := s2.rng) == s2;
    assert Generate(m, s, c, 2) == (s2, None);
  }

  lemma FirstAtP(m: Model, s: State, pending: seq<Event<Action>>) returns (ref: EntityRef)
    requires Shows(m, s, None, None, 0, 0, pending)
    ensures var g := GenerateOne(m, s, 0);
            g.1.None? && g.0.clock == s.clock && Shows(m, g.0, None, None, 0, 1, pending + [ServedByE(s.clock, ref)])
  {
    MakeOne(m, s, None, None, 0, 0, pending, 0);
    ref := Spawn(m, s, 0).1;
    FirstIntoP(m, Spawn(m, s, 0).0, ref, pending);
    GoesThrough(m, s, 0);
  }

  lemma SecondAtP(m: Model, s: State, pending: seq<Event<Action>>) returns (ref: EntityRef)
    requires Shows(m, s, None, None, 0, 1, pending)
    ensures var g := GenerateOne(m, s, 0);
            g.1.None? && g.0.clock == s.clock && ref.typ == 1 && Shows(m, g.0, Some(ref), None, 0, 1, pending)
  {
    MakeOne(m, s, None, None, 0, 1, pending, 0);
    ref := Spawn(m, s, 0).1;
    SecondIntoP(m, Spawn(m, s, 0).0, ref, pending);
    GoesThrough(m, s, 0);
  }

  lemma FirstAtQ(m: Model, s: State, p: EntityRef, pending: seq<Event<Action>>) returns (ref: EntityRef)
    requires Shows(m, s, Some(p), None, 0, 1, pending)
    ensures var g := GenerateOne(m, s, 1);
            g.1.None? && g.0.clock == s.clock && Shows(m, g.0, Some(p), None, 1, 1, pending + [ServedByD(s.clock, ref)])
  {
    MakeOne(m, s, Some(p), None, 0, 1, pending, 1);
    ref := Spawn(m, s, 1).1;
    FirstIntoQ(m, Spawn(m, s, 1).0, ref, Some(p), pending);
    GoesThrough(m, s, 1);
  }

  lemma SecondAtQ(m: Model, s: State, p: EntityRef, pending: seq<Event<Action>>) returns (ref: EntityRef)
    requires Shows(m, s, Some(p), None, 1, 1, pending)
    ensures var g := GenerateOne(m, s, 1);
            g.1.None? && g.0.clock == s.clock && Shows(m, g.0, Some(p), Some(ref), 1, 1, pending)
  {
    MakeOne(m, s, Some(p), None, 1, 1, pending, 1);
    ref := Spawn(m, s, 1).1;
    SecondIntoQ(m, Spawn(m, s, 1).0, ref, Some(p), pending);
    GoesThrough(m, s, 1);
  }

  /** Two arrivals at P: the first goes on to E, the second waits. */
  lemma ArrivalsAtP(m: Model, s: State, pending: seq<Event<Action>>) returns (ref1: EntityRef, ref2: EntityRef)
    requires Shows(m, s, None, None, 0, 0, pending)
    ensures ref2.typ == 1 && HandleArrival(m, s, 0).clock == s.clock
    ensures Shows(m, HandleArrival(m, s, 0), Some(ref2), None, 0, 1,
            pending + [ServedByE(s.clock, ref1)] + [Event(s.clock + 100.0, Run(Arrival(0)))])
  {
    hide *;
    ShowsMeans(m, s, None, None, 0, 0, pending);
    ref1 := FirstAtP(m, s, pending);
    var s1, longer := GenerateOne(m, s, 0).0, pending + [ServedByE(s.clock, ref1)];
    ref2 := SecondAtP(m, s1, longer);
    var s2 := GenerateOne(m, s1, 0).0;
    ShowsGoOn(m, s, 0, s1, s2, Some(ref2), None, 0, 1, longer);
  }

  /** Two arrivals at Q: the first goes on to D, the second waits. */
  lemma ArrivalsAtQ(m: Model, s: State, p: EntityRef, pending: seq<Event<Action>>)
    returns (ref1: EntityRef, ref2: EntityRef)
    requires Shows(m, s, Some(p), None, 0, 1, pending)
    ensures HandleArrival(m, s, 1).clock == s.clock
    ensures Shows(m, HandleArrival(m, s, 1), Some(p), Some(ref2), 1, 1,
            pending + [ServedByD(s.clock, ref1)] + [Event(s.clock + 100.0, Run(Arrival(1)))])
  {
    hide *;
    ShowsMeans(m, s, Some(p), None, 0, 1, pending);
    ref1 := FirstAtQ(m, s, p, pending);
    var s1, longer := GenerateOne(m, s, 1).0, pending + [ServedByD(s.clock, ref1)];
    ref2 := SecondAtQ(m, s1, p, longer);
    var s2 := GenerateOne(m, s1, 1).0;
    ShowsGoOn(m, s, 1, s1, s2, Some(p), Some(ref2), 1, 1, longer);
  }

  lemma ShowsGoOn(m: Model, s: State, c: BlockId, s1: State, s2: State, inP: Option<EntityRef>,
                  inQ: Option<EntityRef>, d: nat, e: nat, pending: seq<Event<Action>>)
    requires Linked(m) && Fits(m, s) && c < 2 && c < |m.blocks| && m.blocks[c].Create?
    requires GenerateOne(m, s, c) == (s1, None) && GenerateOne(m, s1, c) == (s2, None)
    requires Shows(m, s2, inP, inQ, d, e, pending)
    ensures var s' := HandleArrival(m, s, c);
            && s'.clock == s2.clock
            && Shows(m, s', inP, inQ, d, e, pending + [Event(s2.clock + 100.0, Run(Arrival(c)))])
  {
    hide GenerateOne, Shows, HandleArrival, IsDetour, Linked, Fits;
    ShowsMeans(m, s2, inP, inQ, d, e, pending);
    TwoArrivals(m, s, c, s2);
    ArrivalIsScheduled(m, s2, inP, inQ, d, e, pending, c);
  }

  lemma DetourStartsWithTwo(m: Model)
    requires IsDetour(m)
    ensures StartsWithTwo(m)
  {
  }

  function Schedule0(e: EntityRef, d: EntityRef): seq<Event<Action>> {
    [ServedByE(0.0, e), Event(100.0, Run(Arrival(0))), ServedByD(0.0, d), Event(100.0, Run(Arrival(1)))]
  }

  lemma InitialShowsNothing(m: Model, vars: seq<Value>, rng: nat)
    requires IsDetour(m) && |vars| == |m.vars|
    ensures var s := Initial(m, vars, rng); s.clock == 0.0 && Shows(m, s, None, None, 0, 0, [])
  {
  }

  /** The order in which the events were scheduled. */
  lemma AsScheduled(e: EntityRef, d: EntityRef)
    ensures [] + [ServedByE(0.0, e)] + [Event(0.0 + 100.0, Run(Arrival(0)))] + [ServedByD(0.0, d)]
            + [Event(0.0 + 100.0, Run(Arrival(1)))] == Schedule0(e, d)
  {
  }

  lemma DetourStarts(m: Model, s: State) returns (p: EntityRef, q: EntityRef, e: EntityRef, d: EntityRef)
    requires s.clock == 0.0 && Shows(m, s, None, None, 0, 0, [])
    ensures p.typ == 1 && Shows(m, StartFrom(m, s, 0), Some(p), Some(q), 1, 1, Schedule0(e, d))
  {
    hide *;
    ShowsMeans(m, s, None, None, 0, 0, []);
    e, p := ArrivalsAtP(m, s, []);
    var s1 := HandleArrival(m, s, 0);
    d, q := ArrivalsAtQ(m, s1, p, [] + [ServedByE(0.0, e)] + [Event(0.0 + 100.0, Run(Arrival(0)))]);
    AsScheduled(e, d);
    DetourStartsWithTwo(m);
    StartsTwice(m, s);
  }

  /** A served entity terminates and frees its unit. */
  lemma {:induction false} Served7(m: Model, s: State, x: BlockId, ref: EntityRef)
    requires IsDetour(m) && Fits(m, s) && (x == D || x == E) && ValidRef(s, ref) && s.blocks[x].busy == 1
    ensures Ready(m, s, 7, ref)
    ensures var r := Enter(m, s, 7, ref);
            && r.ok
            && var s' := LeaveDelay(m, r.st, x);
            && s'.clock == s.clock && s'.stop == s.stop && s'.pending == s.pending && s'.blocks[x].busy == 0
            && |s'.blocks| == |s.blocks| && forall a: nat ::
                 a < |s.blocks| && a != x && a != 7 ==> s'.blocks[a] == s.blocks[a]
  {
    Reach(m, s, 7, ref);
    assert Enter(m, s, 7, ref) == EnterTerminate(m, s, 7, ref);
  }

  lemma CompletionTurn(m: Model, s: State, i: nat, x: BlockId, ref: EntityRef)
    requires Linked(m) && Fits(m, s) && m.stopRule.None? && i < |s.pending|
             && s.pending[i].handler == Run(Completion(x, ref))
    ensures x < |m.blocks| && m.blocks[x].Delay? && ValidRef(Take(m, s, i), ref)
    ensures Step(m, s, i) == HandleCompletion(m, Take(m, s, i), x, ref)
  {
    assert EventFits(m, s, s.pending[i]);
  }

  lemma EGetsFree(m: Model, s: State, p: EntityRef, q: EntityRef, e: EntityRef, pending: seq<Event<Action>>)
    requires Shows(m, s, Some(p), Some(q), 1, 1, pending) && ValidRef(s, e)
    ensures Shows(m, HandleCompletion(m, s, E, e), Some(p), Some(q), 1, 0, pending)
  {
    Served7(m, s, E, e);
  }

  lemma TakeShows(m: Model, s: State, i: nat, inP: Option<EntityRef>, inQ: Option<EntityRef>, d: nat, e: nat,
                  pending: seq<Event<Action>>)
    requires Shows(m, s, inP, inQ, d, e, pending) && i < |pending|
    ensures Fits(m, s) && i < |s.pending| && Shows(m, Take(m, s, i), inP, inQ, d, e, RemoveAt(pending, i))
  {
  }

  lemma FirstTurn(m: Model, s: State, p: EntityRef, q: EntityRef, e: EntityRef, d: EntityRef)
    requires Shows(m, s, Some(p), Some(q), 1, 1, Schedule0(e, d))
    ensures Next(s, 0)
    ensures Shows(m, Step(m, s, 0), Some(p), Some(q), 1, 0, Schedule0(e, d)[1..])
  {
    hide Linked, Fits, Step, Take, HandleCompletion;
    TakeShows(m, s, 0, Some(p), Some(q), 1, 1, Schedule0(e, d));
    CompletionTurn(m, s, 0, E, e);
    assert RemoveAt(Schedule0(e, d), 0) == Schedule0(e, d)[1..];
    EGetsFree(m, Take(m, s, 0), p, q, e, Schedule0(e, d)[1..]);
  }

  lemma DIdles(m: Model, s: State, p: EntityRef, q: EntityRef, d: EntityRef, pending: seq<Event<Action>>)
    requires Shows(m, s, Some(p), Some(q), 1, 0, pending) && p.typ == 1 && ValidRef(s, d)
    ensures var s' := HandleCompletion(m, s, D, d); !s'.stop && s'.blocks[Q].waiting != [] && s'.blocks[D].busy == 0
  {
    Served7(m, s, D, d);
    WakesPOnly(m, LeaveDelay(m, Enter(m, s, 7, d).st, D), p);
  }

  lemma SecondTurn(m: Model, s: State, p: EntityRef, q: EntityRef, e: EntityRef, d: EntityRef)
    requires Shows(m, s, Some(p), Some(q), 1, 0, Schedule0(e, d)[1..]) && p.typ == 1
    ensures Next(s, 1)
    ensures var s' := Step(m, s, 1); !s'.stop && s'.blocks[Q].waiting != [] && s'.blocks[D].busy == 0
  {
    hide Linked, Fits, Step, Take, HandleCompletion;
    TakeShows(m, s, 1, Some(p), Some(q), 1, 0, Schedule0(e, d)[1..]);
    CompletionTurn(m, s, 1, D, d);
    DIdles(m, Take(m, s, 1), p, q, d, RemoveAt(s.pending, 1));
  }

  /** The head of P is taken by E, and that ends the waking. */
  lemma {:induction false} WakesPOnly(m: Model, s: State, p: EntityRef)
    requires IsDetour(m) && Fits(m, s) && HoldsOnly(s.blocks[P].waiting, Some(p)) && p.typ == 1 && s.blocks[E].busy == 0
    requires !s.stop
    ensures forall x <- m.blocks[D].waitQueues :: IsQueue(m, x) && m.rank[x] < m.top
    ensures var s' := Wake(m, s, m.blocks[D].waitQueues, m.top);
            !s'.stop && s'.blocks[Q] == s.blocks[Q] && s'.blocks[D] == s.blocks[D]
  {
    assert BlockLinked(m, D);
    hide Linked, Fits, Enter;
    OfferHead(m, s, P);
    IntoFork(m, s, p);
    assert m.blocks[D].waitQueues[0] == P;
  }

  lemma {:induction false} RunOfTwoTurns(m: Model, vars: seq<Value>, rng: nat, i: nat, j: nat)
    requires Linked(m) && |vars| == |m.vars| && Next(StartFrom(m, Initial(m, vars, rng), 0), i)
    requires Next(Step(m, StartFrom(m, Initial(m, vars, rng), 0), i), j)
    ensures var s0 := StartFrom(m, Initial(m, vars, rng), 0);
            IsRun(m, [s0, Step(m, s0, i), Step(m, Step(m, s0, i), j)])
  {
    hide Linked, Fits, StartFrom, Initial, Step;
    var s0 := StartFrom(m, Initial(m, vars, rng), 0);
    var s1 := Step(m, s0, i);
    var run := [s0, s1, Step(m, s1, j)];
    assert TurnAt(m, run, 0) && TurnAt(m, run, 1);
  }

  lemma IdlingRun(m: Model, vars: seq<Value>) returns (run: seq<State>)
    requires IsDetour(m) && |vars| == |m.vars|
    ensures IsRun(m, run) && |run| == 3 && !run[2].stop && Fits(m, run[2])
    ensures run[2].blocks[Q].waiting != [] && run[2].blocks[D].busy == 0
  {
    InitialShowsNothing(m, vars, 0);
    var p, q, e, d := DetourStarts(m, Initial(m, vars, 0));
    var s0 := StartFrom(m, Initial(m, vars, 0), 0);
    FirstTurn(m, s0, p, q, e, d);
    var s1 := Step(m, s0, 0);
    SecondTurn(m, s1, p, q, e, d);
    RunOfTwoTurns(m, vars, 0, 0, 1);
    run := [s0, s1, Step(m, s1, 1)];
  }

  /** A linked model with a run of two turns after which D idles although Q, which feeds it, waits. */
  lemma DelayIdlesBesideQueue()
    ensures var m := Detour();
            && Serves(m, D, 1, Q)
            && exists run: seq<State> :: IsRun(m, run) && |run| == 3 && !run[2].stop && Fits(m, run[2])
                             && run[2].blocks[Q].waiting != [] && run[2].blocks[D].busy == 0
  {
    DetourIsLinked();
    var run := IdlingRun(Detour(), []);
  }

  // ---------- the model as the parser would deliver it ----------

  function DetourSource(): L.Source {
    L.Source(map["one" := {}, "two" := {}], {}, [],
             [L.BlockDesc("in1", L.Create("one", "p")),
              L.BlockDesc("in2", L.Create("two", "q")),
              L.BlockDesc("p", L.Queue(false, "", false, "", "fork")),
              L.BlockDesc("q", L.Queue(false, "", false, "", "d")),
              L.BlockDesc("fork", L.Branch(["d"], true, "e")),
              L.BlockDesc("d", L.Delay(["p", "q"], "out")),
              L.BlockDesc("e", L.Delay([], "out")),
              L.BlockDesc("out", L.Terminate)])
  }

  function DetourLinks(): seq<L.Links> {
    [L.NO_LINKS.(next := Some(P)),
     L.NO_LINKS.(next := Some(Q)),
     L.NO_LINKS.(next := Some(FORK)),
     L.NO_LINKS.(next := Some(D)),
     L.NO_LINKS.(cases := [D], orElse := Some(E)),
     L.NO_LINKS.(next := Some(7), waitQueues := [P, Q]),
     L.NO_LINKS.(next := Some(7)),
     L.NO_LINKS]
  }

  function DetourTables(): Tables {
    Tables(e => if e == "one" then 1 else 2, (e, f) => 0, v => 0)
  }

  /** The same, block by block. */
  ghost predicate IsDetourSource(m: L.Source, links: seq<L.Links>) {
    && m.resources == [] && "one" in m.entities && "two" in m.entities && |m.blocks| == |links| == 8
    && (forall i, j :: 0 <= i < j < 8 ==> m.blocks[i].name != m.blocks[j].name)
    && m.blocks[0].params == L.Create("one", "p") && links[0] == L.NO_LINKS.(next := Some(P))
    && m.blocks[1].params == L.Create("two", "q") && links[1] == L.NO_LINKS.(next := Some(Q))
    && m.blocks[P] == L.BlockDesc("p", L.Queue(false, "", false, "", "fork"))
         && links[P] == L.NO_LINKS.(next := Some(FORK))
    && m.blocks[Q] == L.BlockDesc("q", L.Queue(false, "", false, "", "d")) && links[Q] == L.NO_LINKS.(next := Some(D))
    && m.blocks[FORK] == L.BlockDesc("fork", L.Branch(["d"], true, "e"))
         && links[FORK] == L.NO_LINKS.(cases := [D], orElse := Some(E))
    && m.blocks[D] == L.BlockDesc("d", L.Delay(["p", "q"], "out"))
         && links[D] == L.NO_LINKS.(next := Some(7), waitQueues := [P, Q])
    && m.blocks[E] == L.BlockDesc("e", L.Delay([], "out")) && links[E] == L.NO_LINKS.(next := Some(7))
    && m.blocks[7] == L.BlockDesc("out", L.Terminate)
  }

  lemma DetourSourceIsOne()
    ensures IsDetourSource(DetourSource(), DetourLinks())
  {
  }

  lemma DetourNames(m: L.Source, links: seq<L.Links>)
    requires IsDetourSource(m, links)
    ensures L.HasBlock(m, "p") && L.HasBlock(m, "q") && L.HasBlock(m, "fork") && L.HasBlock(m, "d")
            && L.HasBlock(m, "e") && L.HasBlock(m, "out")
    ensures L.HasQueue(m, "p") && L.HasQueue(m, "q")
  {
    assert m.blocks[P].name == "p" && m.blocks[Q].name == "q" && m.blocks[FORK].name == "fork"
      && m.blocks[D].name == "d";
    assert m.blocks[E].name == "e" && m.blocks[7].name == "out";
  }

  lemma DetourBlock(m: L.Source, links: seq<L.Links>, b: nat)
    requires IsDetourSource(m, links) && b < 8
    ensures L.BlockOk(m, m.blocks[b]) && L.Resolved(m, m.blocks[b].params, links[b])
  {
    DetourNames(m, links);
    hide L.HasBlock, L.HasQueue;
    assert b in {0, 1, P, Q, FORK, D, E, 7};
  }

  lemma DetourReaches(m: L.Source, links: seq<L.Links>)
    requires IsDetourSource(m, links)
    ensures L.WaitQueuesReach(m, links)
  {
    var graph := L.HopsOf(m, links);
    assert graph[FORK] == R.Fork([D], Some(E));
    assert R.IsPath(graph, [FORK, D], FORK, D) && R.IsPath(graph, [D], D, D);
    assert R.CanReach(graph, FORK, D) && R.CanReach(graph, D, D);
    forall b: nat | b < |links|
      ensures L.ReachedBy(m, links, b)
    {
      if b == D {
        assert links[P].next == Some(FORK) && links[Q].next == Some(D);
      }
    }
  }

  lemma DetourPasses(m: L.Source, links: seq<L.Links>)
    requires IsDetourSource(m, links)
    ensures L.UniqueNames(m) && L.Linkable(m) && PassedLinking(m, links, [])
  {
    forall b: nat | b < 8
      ensures L.BlockOk(m, m.blocks[b]) && L.Resolved(m, m.blocks[b].params, links[b])
    {
      DetourBlock(m, links, b);
    }
    DetourReaches(m, links);
    assert m.blocks[0].params.Create? && m.blocks[7].params.Terminate?;
    hide L.BlockOk, L.Resolved, L.WaitQueuesReach;
    assert L.LinkedGraph(m, links);
  }

  lemma DetourIsCompiled(src: L.Source, links: seq<L.Links>, m: Model)
    requires IsDetourSource(src, links) && IsDetour(m) && m.resources == [] && src.vars == {}
             && src.entities == map["one" := {}, "two" := {}]
    requires forall t: nat :: t < 2 ==> m.entities[t] == EntityDesc([], [])
    ensures Compiles(src, links, [], DetourTables(), m)
  {
    forall b: nat | b < 8
      ensures Compiled(src.blocks[b].params, links[b], m.blocks[b], DetourTables())
    {
      assert b in {0, 1, P, Q, FORK, D, E, 7};
    }
  }

  /** Linking accepts the source of the model. */
  lemma DetourComesFromSource()
    ensures var src, links := DetourSource(), DetourLinks();
            L.UniqueNames(src) && L.Linkable(src) && PassedLinking(src, links, [])
              && Compiles(src, links, [], DetourTables(), Detour())
  {
    DetourSourceIsOne();
    DetourIsLinked();
    var src, m := DetourSource(), Detour();
    assert src.vars == {} && src.entities == map["one" := {}, "two" := {}] && IsDetour(m) && m.resources == [];
    assert forall t: nat :: t < 2 ==> m.entities[t] == EntityDesc([], []);
    hide DetourSource, DetourLinks, Detour, DetourTables, IsDetourSource, IsDetour, Compiles, PassedLinking,
      L.Linkable, L.UniqueNames;
    DetourPasses(src, DetourLinks());
    DetourIsCompiled(src, DetourLinks(), m);
  }
}
