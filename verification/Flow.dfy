/** Balance of the statistics counters: what entered a block has left it or is still inside, and
    what the model created has been dropped, has terminated, waits or is being served. */
module Flow {
  import opened EventQueues
  import opened Sums
  import opened SimModel
  import opened Semantics
  import opened Potentials
  import opened Tallies
  import opened Conservation
  import opened Runs

  function NoEvent(): Event<Action> -> int {
    (e: Event<Action>) => 0
  }

  function NothingTaken(): Action -> int {
    (a: Action) => 0
  }

  function Weightless(): EntityRef -> int {
    (x: EntityRef) => 0
  }

  // ---------- single blocks ----------

  function QueueTally(q: BlockId): Tally {
    Tally((b: BlockId, x: BlockState) => if b == q then x.enterN - x.exitN - x.dropN - x.timeoutN - |x.waiting| else 0,
          NoEvent(), (s: State) => 0, Weightless(), (k: nat) => 0, true)
  }

  function DelayTally(d: BlockId): Tally {
    Tally((b: BlockId, x: BlockState) => if b == d then x.enterN - x.exitN - x.busy else 0,
          NoEvent(), (s: State) => 0, Weightless(), (k: nat) => 0, false)
  }

  function PassTally(a: BlockId): Tally {
    Tally((b: BlockId, x: BlockState) => if b == a then x.enterN - x.exitN else 0,
          NoEvent(), (s: State) => 0, Weightless(), (k: nat) => 0, false)
  }

  function ResourceTally(k: nat): Tally {
    Tally((b: BlockId, x: BlockState) => 0, NoEvent(),
          (s: State) => if k < |s.res| then s.res[k].seizeN - s.res[k].releaseN - s.res[k].busy else 0,
          Weightless(), (j: nat) => if j == k then 1 else 0, false)
  }

  lemma QueueConserved(m: Model, q: BlockId)
    requires IsQueue(m, q)
    ensures Conserved(m, QueueTally(q), NothingTaken())
  {
    var t := QueueTally(q);
    assert BlockBalance(m, t);
    assert QueueBalance(m, t);
    assert StoreBalance(m, t);
    assert DelayEventBalance(m, t, NothingTaken());
    assert CreateEventBalance(m, t);
  }

  lemma DelayConserved(m: Model, d: BlockId)
    requires d < |m.blocks| && m.blocks[d].Delay?
    ensures Conserved(m, DelayTally(d), NothingTaken())
  {
    var t := DelayTally(d);
    assert BlockBalance(m, t);
    assert QueueBalance(m, t);
    assert StoreBalance(m, t);
    assert DelayEventBalance(m, t, NothingTaken());
    assert CreateEventBalance(m, t);
  }

  lemma PassConserved(m: Model, a: BlockId)
    requires a < |m.blocks| && PassesThrough(m.blocks[a])
    ensures Conserved(m, PassTally(a), NothingTaken())
  {
    var t := PassTally(a);
    assert BlockBalance(m, t);
    assert QueueBalance(m, t);
    assert StoreBalance(m, t);
    assert DelayEventBalance(m, t, NothingTaken());
    assert CreateEventBalance(m, t);
  }

  lemma ResourceStoreBalance(m: Model, k: nat)
    ensures StoreBalance(m, ResourceTally(k))
  {
  }

  lemma ResourceOtherBalances(m: Model, k: nat)
    ensures BlockBalance(m, ResourceTally(k)) && QueueBalance(m, ResourceTally(k))
    ensures DelayEventBalance(m, ResourceTally(k), NothingTaken())
  {
  }

  lemma ResourceCreateBalance(m: Model, k: nat)
    ensures CreateEventBalance(m, ResourceTally(k))
  {
  }

  lemma ResourceConserved(m: Model, k: nat)
    ensures Conserved(m, ResourceTally(k), NothingTaken())
  {
    ResourceStoreBalance(m, k);
    ResourceOtherBalances(m, k);
    ResourceCreateBalance(m, k);
  }

  lemma {:induction false} NoEventSum(es: seq<Event<Action>>)
    ensures Sum(es, NoEvent()) == 0
  {
    SumZero(es, NoEvent());
  }

  lemma SingleBlockValue(t: Tally, s: State, a: BlockId)
    requires a < |s.blocks| && t.event == NoEvent() && t.store(s) == 0
    requires forall b: nat, x {:trigger t.block(b, x)} :: b != a ==> t.block(b, x) == 0
    ensures ValueOf(t, s) == t.block(a, s.blocks[a])
  {
    NoEventSum(s.pending);
    SinglePoint(BlockTerms(t, s.blocks), |s.blocks|, a);
  }

  lemma SingleBlockZeroAtStart(m: Model, t: Tally, a: BlockId)
    requires a < |m.blocks| && t.event == NoEvent() && (forall s {:trigger t.store(s)} :: t.store(s) == 0)
    requires forall b: nat, x {:trigger t.block(b, x)} :: b != a ==> t.block(b, x) == 0
    requires t.block(a, FRESH_BLOCK) == 0
    ensures forall vars, rng :: |vars| == |m.vars| ==> ValueOf(t, Initial(m, vars, rng)) == 0
  {
    forall vars, rng | |vars| == |m.vars|
      ensures ValueOf(t, Initial(m, vars, rng)) == 0
    {
      SingleBlockValue(t, Initial(m, vars, rng), a);
    }
  }

  /** QUEUE: every entry has advanced, overflowed or timed out, or is still waiting. */
  lemma QueueBalanceOnRuns(m: Model, run: seq<State>, q: BlockId)
    requires IsRun(m, run) && IsQueue(m, q)
    ensures Fits(m, run[|run| - 1])
    ensures !run[|run| - 1].stop ==>
              var x := run[|run| - 1].blocks[q];
              x.enterN == x.exitN + x.dropN + x.timeoutN + |x.waiting|
  {
    RunFits(m, run);
    QueueConserved(m, q);
    SingleBlockZeroAtStart(m, QueueTally(q), q);
    ZeroOnRuns(m, QueueTally(q), NothingTaken(), run);
    SingleBlockValue(QueueTally(q), run[|run| - 1], q);
  }

  /** DELAY: every entry has left or is being served. */
  lemma DelayBalanceOnRuns(m: Model, run: seq<State>, d: BlockId)
    requires IsRun(m, run) && d < |m.blocks| && m.blocks[d].Delay?
    ensures Fits(m, run[|run| - 1])
    ensures !run[|run| - 1].stop ==>
              var x := run[|run| - 1].blocks[d];
              x.enterN == x.exitN + x.busy && x.busy == Sum(run[|run| - 1].pending, CompletionAt(d))
  {
    BusyMatchesOnRuns(m, run);
    DelayConserved(m, d);
    SingleBlockZeroAtStart(m, DelayTally(d), d);
    ZeroOnRuns(m, DelayTally(d), NothingTaken(), run);
    SingleBlockValue(DelayTally(d), run[|run| - 1], d);
  }

  /** SEIZE, RELEASE, ASSIGN and BRANCH hold nothing. */
  lemma PassBalanceOnRuns(m: Model, run: seq<State>, a: BlockId)
    requires IsRun(m, run) && a < |m.blocks| && PassesThrough(m.blocks[a])
    ensures Fits(m, run[|run| - 1])
    ensures !run[|run| - 1].stop ==> run[|run| - 1].blocks[a].enterN == run[|run| - 1].blocks[a].exitN
  {
    RunFits(m, run);
    PassConserved(m, a);
    SingleBlockZeroAtStart(m, PassTally(a), a);
    ZeroOnRuns(m, PassTally(a), NothingTaken(), run);
    SingleBlockValue(PassTally(a), run[|run| - 1], a);
  }

  /** Resource: every unit seized was released or is held, although undone seizures are not counted. */
  lemma ResourceBalanceOnRuns(m: Model, run: seq<State>, k: nat)
    requires IsRun(m, run) && k < |m.resources|
    ensures Fits(m, run[|run| - 1])
    ensures !run[|run| - 1].stop ==>
              var x := run[|run| - 1].res[k];
              x.seizeN == x.releaseN + x.busy
  {
    RunFits(m, run);
    ResourceConserved(m, k);
    var t := ResourceTally(k);
    forall vars, rng | |vars| == |m.vars|
      ensures ValueOf(t, Initial(m, vars, rng)) == 0
    {
      var s := Initial(m, vars, rng);
      NoEventSum(s.pending);
      SumToZero(BlockTerms(t, s.blocks), |s.blocks|);
    }
    ZeroOnRuns(m, t, NothingTaken(), run);
    var s := run[|run| - 1];
    NoEventSum(s.pending);
    SumToZero(BlockTerms(t, s.blocks), |s.blocks|);
  }

  // ---------- the whole model ----------

  function FlowTerm(m: Model, b: BlockId, x: BlockState): int {
    if b >= |m.blocks| then 0
    else
      match m.blocks[b]
      case Queue(_, _, _, _) => |x.waiting|
      case Delay(_, _, _, _) => x.busy
      case Terminate => x.enterN
      case Create(_, _, _, _, _, _) => x.dropN - x.createdN
      case _ => 0
  }

  function FlowTally(m: Model): Tally {
    Tally((b: BlockId, x: BlockState) => FlowTerm(m, b, x),
          NoEvent(), (s: State) => 0, (x: EntityRef) => 1, (k: nat) => 0, false)
  }

  lemma FlowBlockBalance(m: Model)
    ensures BlockBalance(m, FlowTally(m))
  {
  }

  lemma FlowQueueBalance(m: Model)
    ensures QueueBalance(m, FlowTally(m))
  {
  }

  lemma FlowStoreBalance(m: Model)
    ensures StoreBalance(m, FlowTally(m))
  {
  }

  lemma FlowEventBalances(m: Model)
    ensures DelayEventBalance(m, FlowTally(m), NothingTaken()) && CreateEventBalance(m, FlowTally(m))
  {
  }

  lemma FlowConserved(m: Model)
    ensures Conserved(m, FlowTally(m), NothingTaken())
  {
    FlowBlockBalance(m);
    FlowQueueBalance(m);
    FlowStoreBalance(m);
    FlowEventBalances(m);
  }

  /** A counter of block b, if b is of the wanted kind. */
  function Counter(m: Model, s: State, kind: Block -> bool, counter: BlockState -> nat): nat -> int {
    (b: nat) => if b < |m.blocks| && b < |s.blocks| && kind(m.blocks[b]) then counter(s.blocks[b]) else 0
  }

  function CreatedIn(m: Model, s: State): nat -> int {
    Counter(m, s, (k: Block) => k.Create?, (x: BlockState) => x.createdN)
  }

  function DroppedIn(m: Model, s: State): nat -> int {
    Counter(m, s, (k: Block) => k.Create?, (x: BlockState) => x.dropN)
  }

  function TerminatedIn(m: Model, s: State): nat -> int {
    Counter(m, s, (k: Block) => k.Terminate?, (x: BlockState) => x.enterN)
  }

  function WaitingIn(m: Model, s: State): nat -> int {
    Counter(m, s, (k: Block) => k.Queue?, (x: BlockState) => |x.waiting|)
  }

  function BusyIn(m: Model, s: State): nat -> int { Counter(m, s, (k: Block) => k.Delay?, (x: BlockState) => x.busy) }

  lemma {:induction false} FiveSums(f: nat -> int, created: nat -> int, dropped: nat -> int, terminated: nat -> int,
                                    waiting: nat -> int, busy: nat -> int, n: nat)
    requires forall b: nat :: b < n ==> f(b) == dropped(b) + terminated(b) + waiting(b) + busy(b) - created(b)
    ensures SumTo(f, n) == SumTo(dropped, n) + SumTo(terminated, n) + SumTo(waiting, n)
            + SumTo(busy, n) - SumTo(created, n)
  {
    if n > 0 {
      FiveSums(f, created, dropped, terminated, waiting, busy, n - 1);
    }
  }

  lemma FlowValue(m: Model, s: State)
    requires |s.blocks| == |m.blocks|
    ensures var n := |s.blocks|;
            ValueOf(FlowTally(m), s) == SumTo(DroppedIn(m, s), n) + SumTo(TerminatedIn(m, s), n)
              + SumTo(WaitingIn(m, s), n)
                                        + SumTo(BusyIn(m, s), n) - SumTo(CreatedIn(m, s), n)
  {
    NoEventSum(s.pending);
    FiveSums(BlockTerms(FlowTally(m), s.blocks), CreatedIn(m, s), DroppedIn(m, s), TerminatedIn(m, s),
      WaitingIn(m, s), BusyIn(m, s), |s.blocks|);
  }

  /** Every created entity was dropped by its CREATE or terminated, or waits or is being served. */
  lemma FlowBalanceOnRuns(m: Model, run: seq<State>)
    requires IsRun(m, run)
    ensures !run[|run| - 1].stop ==>
              var s, n := run[|run| - 1], |m.blocks|;
              SumTo(CreatedIn(m, s), n) == SumTo(DroppedIn(m, s), n) + SumTo(TerminatedIn(m, s), n)
                                         + SumTo(WaitingIn(m, s), n) + SumTo(BusyIn(m, s), n)
  {
    RunFits(m, run);
    FlowConserved(m);
    forall vars, rng | |vars| == |m.vars|
      ensures ValueOf(FlowTally(m), Initial(m, vars, rng)) == 0
    {
      var s := Initial(m, vars, rng);
      NoEventSum(s.pending);
      SumToZero(BlockTerms(FlowTally(m), s.blocks), |s.blocks|);
    }
    ZeroOnRuns(m, FlowTally(m), NothingTaken(), run);
    FlowValue(m, run[|run| - 1]);
  }
}
