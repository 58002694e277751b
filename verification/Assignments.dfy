/** What an ASSIGN stores, said of the variables and entity fields themselves: each assignment whose
    guard holds gives its target the value its expression has at that moment and touches nothing
    else; one whose guard fails does nothing. */
module Assignments {
  import opened SimModel
  import opened Semantics

  /** A field target and the fields an expression reads belong to one entity type; the assignment is
      for entities of that type, or for all when no field is involved. */
  predicate Applies(a: Assignment, ref: EntityRef) {
    match a.target
    case Field(entity, _) => ref.typ == entity
    case Var(_) => a.expr.entity.None? || ref.typ == a.expr.entity.value
  }

  /** Variable x holds v in t, and the other variables what they hold in s. */
  predicate VarSet(s: State, t: State, x: nat, v: Value) {
    && x < |s.vars| == |t.vars| && t.vars[x] == v
    && (forall y: nat :: y < |s.vars| && y != x ==> t.vars[y] == s.vars[y])
  }

  /** Field f of slot i holds v in q, and every other field of every slot what it holds in p. */
  predicate SlotSet(p: PoolState, q: PoolState, i: nat, f: nat, v: Value) {
    && q.free == p.free && i < |p.entities| == |q.entities|
    && (forall j: nat :: j < |p.entities| && j != i ==> q.entities[j] == p.entities[j])
    && f < |p.entities[i]| == |q.entities[i]| && q.entities[i][f] == v
    && (forall g: nat :: g < |p.entities[i]| && g != f ==> q.entities[i][g] == p.entities[i][g])
  }

  predicate FieldSet(s: State, t: State, entity: nat, i: nat, f: nat, v: Value) {
    && 1 <= entity <= |s.pools| == |t.pools|
    && SlotSet(s.pools[entity - 1], t.pools[entity - 1], i, f, v)
    && (forall e: nat :: e < |s.pools| && e != entity - 1 ==> t.pools[e] == s.pools[e])
  }

  /** Assignment a, run for ref in s, leads to t. */
  ghost predicate Assigned(s: State, t: State, a: Assignment, ref: EntityRef) {
    if !Applies(a, ref) then t == s
    else
      var (v, rng) := a.expr.eval(Look(s), ref);
      && t == s.(vars := t.vars, pools := t.pools, rng := rng)
      && match a.target
         case Var(x) => VarSet(s, t, x, v) && t.pools == s.pools
         case Field(entity, f) => FieldSet(s, t, entity, ref.idx, f, v) && t.vars == s.vars
  }

  /** u is t after block b counted an entity that entered and left. */
  predicate PassedThrough(t: State, u: State, b: BlockId) {
    && b < |t.blocks|
    && u == t.(blocks := t.blocks[b := t.blocks[b].(enterN := t.blocks[b].enterN + 1, exitN := t.blocks[b].exitN + 1)])
  }

  /** us goes from s, one assignment of xs at a time. */
  ghost predicate AssignedAll(us: seq<State>, s: State, xs: seq<Assignment>, ref: EntityRef) {
    && |us| == |xs| + 1 && us[0] == s
    && forall i: nat :: i < |xs| ==> Assigned(us[i], us[i + 1], xs[i], ref)
  }

  lemma WriteSets(m: Model, s: State, a: Assignment, ref: EntityRef)
    requires Fits(m, s) && ValidRef(s, ref) && TargetFits(m, a.target) && Applies(a, ref)
    ensures var (v, rng) := a.expr.eval(Look(s), ref);
            && Fits(m, s.(rng := rng)) && Writable(m, s.(rng := rng), a.target, ref)
            && Assigned(s, Write(m, s.(rng := rng), a.target, ref, v), a, ref)
  {
    var (v, rng) := a.expr.eval(Look(s), ref);
    hide Look;
    PlainFits(m, s, s.(rng := rng));
    if a.target.Field? {
      assert PoolFits(m.entities[a.target.entity - 1], s.pools[a.target.entity - 1]);
    }
  }

  lemma FirstAssigned(u: State, us: seq<State>, s: State, xs: seq<Assignment>, ref: EntityRef)
    requires xs != [] && Assigned(s, u, xs[0], ref) && AssignedAll(us, u, xs[1..], ref)
    ensures AssignedAll([s] + us, s, xs, ref)
  {
    hide Assigned;
    var all := [s] + us;
    forall i: nat | i < |xs|
      ensures Assigned(all[i], all[i + 1], xs[i], ref)
    {
      if i > 0 {
        assert Assigned(us[i - 1], us[i], xs[1..][i - 1], ref);
      }
    }
  }

  /** Running the assignments of a block passes through states that differ by one assignment each. */
  lemma {:induction false} AssignmentsStore(m: Model, s: State, xs: seq<Assignment>, ref: EntityRef)
    returns (us: seq<State>)
    requires Fits(m, s) && ValidRef(s, ref) && forall x <- xs :: TargetFits(m, x.target)
    ensures AssignedAll(us, s, xs, ref) && us[|xs|] == RunAssignments(m, s, xs, ref).0
    decreases |xs|
  {
    if xs == [] {
      us := [s];
    } else {
      var a, u := xs[0], s;
      if Applies(a, ref) {
        var (v, rng) := a.expr.eval(Look(s), ref);
        WriteSets(m, s, a, ref);
        u := Write(m, s.(rng := rng), a.target, ref, v);
      }
      var rest := AssignmentsStore(m, u, xs[1..], ref);
      us := [s] + rest;
      FirstAssigned(u, rest, s, xs, ref);
    }
  }

  /** An ASSIGN hands the entity to its next block in the state its assignments lead to. When that
      block takes the entity the ASSIGN counts it, and what was stored stands. */
  lemma AssignStoresAndPasses(m: Model, s: State, b: BlockId, ref: EntityRef) returns (us: seq<State>)
    requires Ready(m, s, b, ref) && m.blocks[b].Assign?
    ensures var xs, next := m.blocks[b].assignments, m.blocks[b].next;
            && AssignedAll(us, s, xs, ref) && Ready(m, us[|xs|], next, ref)
            && var taken, r := Enter(m, us[|xs|], next, ref), EnterAssign(m, s, b, ref);
               && r.ok == taken.ok
               && (taken.ok ==> PassedThrough(taken.st, r.st, b))
  {
    hide Assigned, Fits, Look, RunAssignments, UndoAssignments;
    us := AssignmentsStore(m, s, m.blocks[b].assignments, ref);
    Reach(m, us[|us| - 1], m.blocks[b].next, ref);
    HasBlocks(m, Enter(m, us[|us| - 1], m.blocks[b].next, ref).st);
  }

  lemma HasBlocks(m: Model, s: State)
    requires Fits(m, s)
    ensures |s.blocks| == |m.blocks|
  {
  }

  // ---------- which assignment decides ----------

  /** What target t, a variable or a field of ref, holds in s. */
  predicate HoldsValue(s: State, t: Target, ref: EntityRef, v: Value) {
    match t
    case Var(x) => x < |s.vars| && s.vars[x] == v
    case Field(entity, f) =>
      && 1 <= entity <= |s.pools| && ref.idx < |s.pools[entity - 1].entities|
      && f < |s.pools[entity - 1].entities[ref.idx]| && s.pools[entity - 1].entities[ref.idx][f] == v
  }

  lemma AssignedHolds(s: State, u: State, a: Assignment, ref: EntityRef)
    requires Assigned(s, u, a, ref) && Applies(a, ref)
    ensures HoldsValue(u, a.target, ref, a.expr.eval(Look(s), ref).0)
  {
    hide Look;
  }

  lemma OthersKeep(s: State, u: State, a: Assignment, ref: EntityRef, t: Target, v: Value)
    requires Assigned(s, u, a, ref) && (a.target != t || !Applies(a, ref)) && HoldsValue(s, t, ref, v)
    ensures HoldsValue(u, t, ref, v)
  {
    hide Look;
  }

  /** A target that no assignment from the k-th on gives a value keeps what it holds. */
  lemma {:induction false} UnassignedStays(us: seq<State>, s: State, xs: seq<Assignment>, ref: EntityRef, k: nat,
                                           t: Target, v: Value)
    requires AssignedAll(us, s, xs, ref) && k <= |xs| && HoldsValue(us[k], t, ref, v)
    requires forall j: nat :: k <= j < |xs| ==> xs[j].target != t || !Applies(xs[j], ref)
    ensures HoldsValue(us[|xs|], t, ref, v)
    decreases |xs| - k
  {
    hide Assigned, HoldsValue;
    if k < |xs| {
      OthersKeep(us[k], us[k + 1], xs[k], ref, t, v);
      UnassignedStays(us, s, xs, ref, k + 1, t, v);
    }
  }

  /** The last assignment that gives a target a value decides what the next block finds in it. */
  lemma LastAssignmentStands(us: seq<State>, s: State, xs: seq<Assignment>, ref: EntityRef, k: nat)
    requires AssignedAll(us, s, xs, ref) && k < |xs| && Applies(xs[k], ref)
    requires forall j: nat :: k < j < |xs| ==> xs[j].target != xs[k].target || !Applies(xs[j], ref)
    ensures HoldsValue(us[|xs|], xs[k].target, ref, xs[k].expr.eval(Look(us[k]), ref).0)
  {
    hide Assigned, HoldsValue, Look;
    AssignedHolds(us[k], us[k + 1], xs[k], ref);
    UnassignedStays(us, s, xs, ref, k + 1, xs[k].target, xs[k].expr.eval(Look(us[k]), ref).0);
  }
}
