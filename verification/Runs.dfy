/** Whole simulation runs, and the potentials that stay zero along them. */
module Runs {
  import opened Sums
  import opened SimModel
  import opened Semantics
  import opened Potentials
  import opened Tallies
  import opened Conservation

  /** One turn of the run loop; ties between events of equal time may be broken either way. */
  ghost predicate Turn(m: Model, s: State, s': State) {
    Linked(m) && Fits(m, s) && exists i: nat :: Next(s, i) && s' == Step(m, s, i)
  }

  /** The states at the event boundaries of a run: after startCreateBlocks and after every turn. */
  ghost predicate IsRun(m: Model, run: seq<State>) {
    && Linked(m) && run != []
    && (exists vars, rng :: |vars| == |m.vars| && run[0] == StartFrom(m, Initial(m, vars, rng), 0))
    && forall k: nat {:trigger TurnAt(m, run, k)} :: k + 1 < |run| ==> TurnAt(m, run, k)
  }

  ghost predicate TurnAt(m: Model, run: seq<State>, k: nat)
    requires k + 1 < |run|
  {
    Turn(m, run[k], run[k + 1])
  }

  lemma PrefixIsRun(m: Model, run: seq<State>)
    requires IsRun(m, run) && |run| > 1
    ensures IsRun(m, run[..|run| - 1]) && Turn(m, run[|run| - 2], run[|run| - 1])
  {
    var n := |run| - 1;
    assert TurnAt(m, run, n - 1);
    forall k: nat | k + 1 < n
      ensures TurnAt(m, run[..n], k)
    {
      assert TurnAt(m, run, k);
    }
  }

  lemma Beginning(m: Model, run: seq<State>) returns (vars: seq<Value>, rng: nat)
    requires IsRun(m, run)
    ensures |vars| == |m.vars| && run[0] == StartFrom(m, Initial(m, vars, rng), 0)
  {
    vars, rng :| |vars| == |m.vars| && run[0] == StartFrom(m, Initial(m, vars, rng), 0);
  }

  lemma LastTurn(m: Model, run: seq<State>) returns (i: nat)
    requires IsRun(m, run) && |run| > 1
    ensures var n := |run| - 1;
            && IsRun(m, run[..n]) && Fits(m, run[n - 1])
            && Next(run[n - 1], i) && run[n] == Step(m, run[n - 1], i)
                 && EventFits(m, run[n - 1], run[n - 1].pending[i])
  {
    PrefixIsRun(m, run);
    var s := run[|run| - 2];
    i :| Next(s, i) && run[|run| - 1] == Step(m, s, i);
  }

  lemma PrefixesAreRuns(m: Model, run: seq<State>, k: nat)
    requires IsRun(m, run) && k < |run|
    ensures IsRun(m, run[..k + 1])
  {
    var prefix := run[..k + 1];
    forall j: nat | j + 1 < |prefix|
      ensures TurnAt(m, prefix, j)
    {
      assert TurnAt(m, run, j);
    }
  }

  lemma {:induction false} RunFits(m: Model, run: seq<State>)
    requires IsRun(m, run)
    ensures Fits(m, run[|run| - 1])
    decreases |run|
  {
    if |run| > 1 {
      var i := LastTurn(m, run);
    }
  }

  // ---------- potentials that stay zero ----------

  /** A tally all of whose moves are accounted for. */
  ghost predicate Conserved(m: Model, t: Tally, taken: Action -> int) {
    Balanced(m, t) && DelayEventBalance(m, t, taken) && CreateEventBalance(m, t)
  }

  lemma ConservedMoves(m: Model, t: Tally, taken: Action -> int)
    requires Conserved(m, t, taken)
    ensures Additive(m, AsPotential(t)) && EventMoves(m, AsPotential(t), taken)
  {
    BalancedIsAdditive(m, t);
    DelayEventTallies(m, t, taken);
    CreateEventTallies(m, t, taken);
  }

  /** Unless startCreateBlocks stops the simulation, it leaves every conserved tally as it was. */
  lemma {:induction false} StartConserves(m: Model, t: Tally, taken: Action -> int, s: State, b: nat)
    requires Conserved(m, t, taken)
    requires Linked(m) && Fits(m, s) && b <= |m.blocks|
    ensures !StartFrom(m, s, b).stop ==> ValueOf(t, StartFrom(m, s, b)) == ValueOf(t, s)
    decreases |m.blocks| - b
  {
    if b == |m.blocks| {
    } else if !m.blocks[b].Create? {
      StartConserves(m, t, taken, s, b + 1);
    } else {
      StartOneConserves(m, t, taken, s, b);
      StartConserves(m, t, taken, if m.blocks[b].immediately then HandleArrival(m, s, b)
        else ScheduleArrival(m, s, b), b + 1);
    }
  }

  lemma StartOneConserves(m: Model, t: Tally, taken: Action -> int, s: State, b: BlockId)
    requires Conserved(m, t, taken)
    requires Linked(m) && Fits(m, s) && b < |m.blocks| && m.blocks[b].Create?
    ensures ValueOf(t, ScheduleArrival(m, s, b)) == ValueOf(t, s)
    ensures !HandleArrival(m, s, b).stop ==> ValueOf(t, HandleArrival(m, s, b)) == ValueOf(t, s)
  {
    ConservedMoves(m, t, taken);
    ArrivalIsFree(m, AsPotential(t), taken, s, b);
    ArrivalConserves(m, AsPotential(t), taken, s, b);
    StrandsOnlyIfStopped(m, s, Arrival(b));
  }

  lemma TurnKeepsTally(m: Model, t: Tally, taken: Action -> int, s: State, i: nat)
    requires Conserved(m, t, taken)
    requires Linked(m) && Fits(m, s) && BusyMatches(m, s) && Next(s, i)
    ensures !Step(m, s, i).stop ==> ValueOf(t, Step(m, s, i)) == ValueOf(t, s)
  {
    ConservedMoves(m, t, taken);
    assert EventFits(m, s, s.pending[i]);
    TurnConserves(m, AsPotential(t), taken, s, i);
    StrandsOnlyIfStopped(m, Take(m, s, i), s.pending[i].handler.action);
  }

  // ---------- busy counters along a run ----------

  function BusyTaken(d: BlockId): Action -> int {
    (a: Action) => if a.Completion? && a.block == d then -1 else 0
  }

  lemma BusyIsConserved(m: Model, d: BlockId)
    ensures Conserved(m, BusyTally(d), BusyTaken(d))
  {
    BusyIsBalanced(m, d);
    assert DelayEventBalance(m, BusyTally(d), BusyTaken(d));
    assert CreateEventBalance(m, BusyTally(d));
  }

  /** At every event boundary each DELAY is busy with exactly the entities whose completion is pending. */
  lemma {:induction false} BusyMatchesOnRuns(m: Model, run: seq<State>)
    requires IsRun(m, run)
    ensures Fits(m, run[|run| - 1])
    ensures !run[|run| - 1].stop ==> BusyMatches(m, run[|run| - 1])
    decreases |run|
  {
    RunFits(m, run);
    assert run != [];
    hide IsRun, Linked, Step;
    var n := |run| - 1;
    if !run[n].stop {
      if n > 0 {
        var i := LastTurn(m, run);
        BusyMatchesOnRuns(m, run[..n]);
      }
      forall d: nat | d < |m.blocks| && m.blocks[d].Delay?
        ensures run[n].blocks[d].busy == Sum(run[n].pending, CompletionAt(d))
      {
        BusyAtEnd(m, run, d);
      }
    }
  }

  lemma BusyAtEnd(m: Model, run: seq<State>, d: BlockId)
    requires IsRun(m, run) && d < |m.blocks| && Fits(m, run[|run| - 1]) && !run[|run| - 1].stop
    requires |run| > 1 ==> Fits(m, run[|run| - 2]) && BusyMatches(m, run[|run| - 2]) && m.blocks[d].Delay?
    ensures run[|run| - 1].blocks[d].busy == Sum(run[|run| - 1].pending, CompletionAt(d))
  {
    var n := |run| - 1;
    BusyIsConserved(m, d);
    BusyValue(d, run[n]);
    if n == 0 {
      var vars, rng := Beginning(m, run);
      StartConserves(m, BusyTally(d), BusyTaken(d), Initial(m, vars, rng), 0);
      BusyValue(d, Initial(m, vars, rng));
    } else {
      var i := LastTurn(m, run);
      TurnKeepsTally(m, BusyTally(d), BusyTaken(d), run[n - 1], i);
      BusyValue(d, run[n - 1]);
    }
  }

  /** A conserved tally that is zero in the initial state is zero at every event boundary. */
  lemma {:induction false} ZeroOnRuns(m: Model, t: Tally, taken: Action -> int, run: seq<State>)
    requires IsRun(m, run) && Conserved(m, t, taken)
    requires forall vars, rng :: |vars| == |m.vars| ==> ValueOf(t, Initial(m, vars, rng)) == 0
    ensures !run[|run| - 1].stop ==> ValueOf(t, run[|run| - 1]) == 0
    decreases |run|
  {
    var n := |run| - 1;
    if !run[n].stop {
      if n == 0 {
        var vars, rng := Beginning(m, run);
        StartConserves(m, t, taken, Initial(m, vars, rng), 0);
      } else {
        PrefixesAreRuns(m, run, n - 1);
        ZeroOnRuns(m, t, taken, run[..n]);
        LastTurnKeepsTally(m, t, taken, run);
      }
    }
  }

  lemma LastTurnKeepsTally(m: Model, t: Tally, taken: Action -> int, run: seq<State>)
    requires IsRun(m, run) && Conserved(m, t, taken) && |run| > 1 && !run[|run| - 1].stop
    ensures !run[|run| - 2].stop && ValueOf(t, run[|run| - 1]) == ValueOf(t, run[|run| - 2])
  {
    hide Conserved, BusyMatches, ValueOf;
    var n := |run| - 1;
    var i := LastTurn(m, run);
    BusyMatchesOnRuns(m, run[..n]);
    TurnKeepsTally(m, t, taken, run[n - 1], i);
  }
}
