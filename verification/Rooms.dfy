/** Capacities: a QUEUE or DELAY whose capacity is a constant never holds more entities than that. */
module Rooms {
  import opened SimModel
  import opened Semantics
  import opened Transactions
  import opened Steps
  import opened Runs
  import opened Limits

  /** The capacity of the block is c whatever the state. */
  ghost predicate ConstantCapacity(k: Block, c: nat) {
    && (k.Queue? || k.Delay?)
    && k.capacity.Some? && forall v {:trigger k.capacity.value(v)} :: k.capacity.value(v).0 == c
  }

  /** Block b holds at most c, and its high-water mark says so too. */
  predicate Within(b: BlockId, c: nat, s: State) {
    b < |s.blocks| ==>
      && |s.blocks[b].waiting| <= c && s.blocks[b].maxLen <= c
      && s.blocks[b].busy <= s.blocks[b].maxBusy <= c
  }

  function HoldsAtMost(b: BlockId, c: nat): State -> bool {
    (s: State) => Within(b, c, s)
  }

  /** Steps that bring nobody into block b. */
  predicate NobodyEnters(s: State, s': State, b: BlockId) {
    && |s'.blocks| == |s.blocks|
    && (b < |s.blocks| ==>
         && |s'.blocks[b].waiting| <= |s.blocks[b].waiting| && s'.blocks[b].maxLen == s.blocks[b].maxLen
         && s'.blocks[b].busy <= s.blocks[b].busy && s'.blocks[b].maxBusy == s.blocks[b].maxBusy)
  }

  lemma NobodyEntersSuffices(b: BlockId, c: nat)
    ensures forall s, s' {:trigger Within(b, c, s), Within(b, c, s')} ::
              NobodyEnters(s, s', b) && Within(b, c, s) ==> Within(b, c, s')
  {
  }

  lemma AdmissionWithin(m: Model, s: State, a: BlockId, ref: EntityRef, b: BlockId, c: nat)
    requires b < |m.blocks| && ConstantCapacity(m.blocks[b], c)
    requires Ready(m, s, a, ref) && IsQueue(m, a) && Ready(m, CountEnter(s, a), a, ref) && MayAdmit(m, s, a)
    requires Within(b, c, s)
    ensures Within(b, c, Admit(m, CountEnter(s, a), a, ref).st)
  {
    hide Look;
    assert a == b ==> |s.blocks[b].waiting| < c;
  }

  lemma ServiceWithin(m: Model, s: State, a: BlockId, ref: EntityRef, b: BlockId, c: nat)
    requires b < |m.blocks| && ConstantCapacity(m.blocks[b], c)
    requires Ready(m, s, a, ref) && m.blocks[a].Delay? && Within(b, c, s)
    ensures Within(b, c, EnterDelay(m, s, a, ref).st)
  {
    hide Look;
  }

  lemma WithinQuiet(m: Model, b: BlockId, c: nat)
    ensures Composes(Keeping(HoldsAtMost(b, c))) && QuietSteps(m, Keeping(HoldsAtMost(b, c)))
  {
    NobodyEntersSuffices(b, c);
    hide Within;
    forall s, s' | Fits(m, s) && RolledBack(m, s, s')
      ensures NobodyEnters(s, s', b)
    {
      assert b < |s.blocks| ==> SameBlock(m.blocks[b], s.blocks[b], s'.blocks[b]);
    }
  }

  lemma WithinQueues(m: Model, b: BlockId, c: nat)
    requires b < |m.blocks| && ConstantCapacity(m.blocks[b], c)
    ensures QueueSteps(m, Keeping(HoldsAtMost(b, c))) && ExpirySteps(m, Keeping(HoldsAtMost(b, c)))
  {
    NobodyEntersSuffices(b, c);
    hide Within;
    forall s, a: nat, ref | Ready(m, s, a, ref) && IsQueue(m, a) && Ready(m, CountEnter(s, a), a, ref)
                            && MayAdmit(m, s, a) && Within(b, c, s)
      ensures Within(b, c, Admit(m, CountEnter(s, a), a, ref).st)
    {
      AdmissionWithin(m, s, a, ref, b, c);
    }
  }

  lemma WithinMoves(m: Model, b: BlockId, c: nat)
    requires b < |m.blocks| && ConstantCapacity(m.blocks[b], c)
    ensures HoldSteps(m, Keeping(HoldsAtMost(b, c))) && PlaceSteps(m, Keeping(HoldsAtMost(b, c)))
  {
    NobodyEntersSuffices(b, c);
    hide Within;
    forall s, a: nat, ref | Ready(m, s, a, ref) && m.blocks[a].Delay? && Within(b, c, s)
      ensures Within(b, c, EnterDelay(m, s, a, ref).st)
    {
      ServiceWithin(m, s, a, ref, b, c);
    }
  }

  lemma WithinCreates(m: Model, b: BlockId, c: nat)
    ensures CreateSteps(m, Keeping(HoldsAtMost(b, c)))
  {
    NobodyEntersSuffices(b, c);
    hide Within;
  }

  lemma WithinLeaves(m: Model, b: BlockId, c: nat)
    ensures forall d: nat :: LeaveSteps(m, Keeping(HoldsAtMost(b, c)), d)
  {
    NobodyEntersSuffices(b, c);
    hide Within;
  }

  lemma WithinIsInvariant(m: Model, b: BlockId, c: nat)
    requires b < |m.blocks| && ConstantCapacity(m.blocks[b], c)
    ensures Invariant(m, HoldsAtMost(b, c))
  {
    WithinQuiet(m, b, c);
    WithinQueues(m, b, c);
    WithinMoves(m, b, c);
    WithinCreates(m, b, c);
    WithinLeaves(m, b, c);
    hide QuietSteps, QueueSteps, HoldSteps, PlaceSteps, CreateSteps, LeaveSteps, ExpirySteps, Composes;
  }

  /** At every event boundary, even after a stop, a QUEUE or DELAY of constant capacity c holds at most
      c entities, and never held more. */
  lemma NeverOverfull(m: Model, run: seq<State>, b: BlockId, c: nat)
    requires IsRun(m, run) && b < |m.blocks| && ConstantCapacity(m.blocks[b], c)
    ensures b < |run[|run| - 1].blocks|
    ensures var x := run[|run| - 1].blocks[b]; |x.waiting| <= c && x.maxLen <= c && x.busy <= x.maxBusy <= c
  {
    WithinIsInvariant(m, b, c);
    hide Invariant, ConstantCapacity;
    InvariantOnRuns(m, HoldsAtMost(b, c), run);
  }
}
