/** Which way a BRANCH sends an entity: the first case whose condition holds, the conditions being
    evaluated in order, each at the position of the random stream where the one before it left it. */
module Choices {
  import opened Options
  import opened SimModel
  import opened Semantics
  import opened Assignments

  /** The condition c, evaluated for ref with the random stream at position p: its truth, and the
      position after its draws. A test of fields of another entity type is false and draws nothing. */
  function Judge(s: State, c: Condition, ref: EntityRef, p: nat): (bool, nat) {
    match c
    case IsEntity(entity) => (ref.typ == entity, p)
    case Test(expr) =>
      if expr.entity == None || expr.entity == Some(ref.typ) then expr.eval(Look(s.(rng := p)), ref) else (false, p)
  }

  /** i is the least case that holds, or |cases| if none does; ps are the stream positions before
      the first condition and after each condition that is evaluated. */
  ghost predicate FirstAt(s: State, cases: seq<Case>, ref: EntityRef, i: nat, ps: seq<nat>) {
    && i <= |cases| && |ps| == (if i < |cases| then i + 2 else i + 1) && ps[0] == s.rng
    && (forall k: nat :: k < i ==> Judge(s, cases[k].condition, ref, ps[k]) == (false, ps[k + 1]))
    && (i < |cases| ==> Judge(s, cases[i].condition, ref, ps[i]) == (true, ps[i + 1]))
  }

  lemma HoldsJudges(s: State, c: Condition, ref: EntityRef)
    ensures var (holds, p) := Judge(s, c, ref, s.rng); Holds(s, c, ref) == (s.(rng := p), holds)
  {
    assert s.(rng := s.rng) == s;
  }

  lemma JudgeLooksPast(s: State, u: State, c: Condition, ref: EntityRef, p: nat)
    requires u == s.(rng := u.rng)
    ensures Judge(u, c, ref, p) == Judge(s, c, ref, p)
  {
    assert u.(rng := p) == s.(rng := p);
  }

  lemma OneMoreFails(s: State, u: State, cases: seq<Case>, ref: EntityRef, i: nat, ps: seq<nat>)
    requires cases != [] && u == s.(rng := u.rng) && Judge(s, cases[0].condition, ref, s.rng) == (false, u.rng)
    requires FirstAt(u, cases[1..], ref, i, ps)
    ensures FirstAt(s, cases, ref, i + 1, [s.rng] + ps)
  {
    hide Judge;
    var qs := [s.rng] + ps;
    forall k: nat | k < i + 1
      ensures Judge(s, cases[k].condition, ref, qs[k]) == (false, qs[k + 1])
    {
      if k > 0 {
        assert Judge(u, cases[1..][k - 1].condition, ref, ps[k - 1]) == (false, ps[k]);
        JudgeLooksPast(s, u, cases[k].condition, ref, ps[k - 1]);
      }
    }
    if i < |cases[1..]| {
      JudgeLooksPast(s, u, cases[i + 1].condition, ref, ps[i]);
    }
  }

  lemma {:induction false} SelectFindsFirst(s: State, cases: seq<Case>, ref: EntityRef) returns (i: nat, ps: seq<nat>)
    ensures FirstAt(s, cases, ref, i, ps)
    ensures Select(s, cases, ref) == (s.(rng := ps[|ps| - 1]), if i < |cases| then Some(cases[i].next) else None)
    decreases |cases|
  {
    if cases == [] {
      i, ps := 0, [s.rng];
      assert s.(rng := s.rng) == s;
    } else {
      var (holds, p) := Judge(s, cases[0].condition, ref, s.rng);
      HoldsJudges(s, cases[0].condition, ref);
      hide Judge, Holds;
      if holds {
        i, ps := 0, [s.rng, p];
      } else {
        var u := s.(rng := p);
        var j, qs := SelectFindsFirst(u, cases[1..], ref);
        OneMoreFails(s, u, cases, ref, j, qs);
        i, ps := j + 1, [s.rng] + qs;
        assert ps[|ps| - 1] == qs[|qs| - 1];
      }
    }
  }

  lemma {:induction false} SamePositions(s: State, cases: seq<Case>, ref: EntityRef, i: nat, ps: seq<nat>, j: nat,
                                         qs: seq<nat>, k: nat)
    requires FirstAt(s, cases, ref, i, ps) && FirstAt(s, cases, ref, j, qs) && k <= i && k <= j
    ensures ps[k] == qs[k]
    decreases k
  {
    hide Judge;
    if k > 0 {
      SamePositions(s, cases, ref, i, ps, j, qs, k - 1);
      assert Judge(s, cases[k - 1].condition, ref, ps[k - 1]) == (false, ps[k]);
    }
  }

  lemma OneVerdict(s: State, cases: seq<Case>, ref: EntityRef, i: nat, ps: seq<nat>, j: nat, qs: seq<nat>, k: nat)
    requires FirstAt(s, cases, ref, i, ps) && FirstAt(s, cases, ref, j, qs)
    requires k == (if i < j then i else j) && k < |cases| && ps[k] == qs[k]
    ensures i == j && ps[k + 1] == qs[k + 1]
  {
    hide Judge;
  }

  lemma FirstIsUnique(s: State, cases: seq<Case>, ref: EntityRef, i: nat, ps: seq<nat>, j: nat, qs: seq<nat>)
    requires FirstAt(s, cases, ref, i, ps) && FirstAt(s, cases, ref, j, qs)
    ensures i == j && ps == qs
  {
    hide Judge;
    var k := if i < j then i else j;
    SamePositions(s, cases, ref, i, ps, j, qs, k);
    if k < |cases| {
      OneVerdict(s, cases, ref, i, ps, j, qs, k);
    }
    forall k: nat | k <= i
      ensures ps[k] == qs[k]
    {
      SamePositions(s, cases, ref, i, ps, j, qs, k);
    }
  }

  /** A BRANCH chooses case i exactly if i is the least index whose condition holds, and its else
      branch exactly if none holds; the stream then stands after the draws of the conditions
      evaluated, and nothing else has changed. */
  lemma ChoosesFirst(m: Model, s: State, b: BlockId, ref: EntityRef) returns (i: nat, ps: seq<nat>)
    requires b < |m.blocks| && m.blocks[b].Branch?
    ensures var cases := m.blocks[b].cases;
            && i <= |cases| && ps != []
            && (forall j: nat, qs: seq<nat> :: FirstAt(s, cases, ref, j, qs) <==> j == i && qs == ps)
            && Choose(m, s, b, ref) ==
                 (s.(rng := ps[|ps| - 1]), if i < |cases| then Some(cases[i].next) else m.blocks[b].orElse)
  {
    hide Judge;
    var cases := m.blocks[b].cases;
    i, ps := SelectFindsFirst(s, cases, ref);
    assert i <= |cases| && ps != [];
    hide FirstAt;
    forall j: nat, qs: seq<nat> | FirstAt(s, cases, ref, j, qs)
      ensures j == i && qs == ps
    {
      FirstIsUnique(s, cases, ref, i, ps, j, qs);
    }
  }

  /** What the choice leads to: the entity is handed to the block of the first case that holds, or to
      the else branch; if there is neither, the simulation stops and the entity stays. */
  lemma BranchHandsOver(m: Model, s: State, b: BlockId, ref: EntityRef) returns (i: nat, ps: seq<nat>)
    requires Ready(m, s, b, ref) && m.blocks[b].Branch?
    ensures FirstAt(s, m.blocks[b].cases, ref, i, ps)
    ensures var cases, orElse, r := m.blocks[b].cases, m.blocks[b].orElse, EnterBranch(m, s, b, ref);
            var s1 := s.(rng := ps[|ps| - 1]);
            if i == |cases| && orElse.None? then r == Outcome(s1.(stop := true, reason := NoBranchMatched(b)), false)
            else
              var next := if i < |cases| then cases[i].next else orElse.value;
              && Ready(m, s1, next, ref)
              && var taken := Enter(m, s1, next, ref);
                 if !taken.ok then r == taken
                 else r.ok && PassedThrough(taken.st, r.st, b)
  {
    var cases, orElse := m.blocks[b].cases, m.blocks[b].orElse;
    i, ps := ChoosesFirst(m, s, b, ref);
    assert FirstAt(s, cases, ref, i, ps);
    hide Judge, Fits, FirstAt;
    var s1 := s.(rng := ps[|ps| - 1]);
    PlainFits(m, s, s1);
    if i < |cases| {
      assert cases[i] in cases;
      Reach(m, s1, cases[i].next, ref);
    } else if orElse.Some? {
      Reach(m, s1, orElse.value, ref);
    }
  }
}
