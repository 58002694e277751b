/** What linking gives to the kernel, and exactly what must be asked beyond it. */
module LinkedKernel {
  import opened Options
  import opened SimModel
  import L = Linking
  import Acyclic

  /** The numbers that stand for entity, field and variable names. */
  datatype Tables = Tables(entityNo: string -> nat, fieldNo: (string, string) -> nat, varNo: string -> nat)

  ghost predicate TablesFit(src: L.Source, t: Tables, m: Model) {
    && (forall e {:trigger t.entityNo(e)} :: e in src.entities ==> 1 <= t.entityNo(e) <= |m.entities|)
    && (forall e, f {:trigger t.fieldNo(e, f)} ::
         e in src.entities && f in src.entities[e] && 1 <= t.entityNo(e) <= |m.entities| ==>
          t.fieldNo(e, f) < |m.entities[t.entityNo(e) - 1].zero|)
    && (forall v {:trigger t.varNo(v)} :: v in src.vars ==> t.varNo(v) < |m.vars|)
    && forall i: nat :: i < |m.entities| ==> |m.entities[i].zero| == |m.entities[i].defaults|
  }

  function TargetOf(t: Tables, target: L.TargetName): Target {
    match target
    case FieldOf(e, f) => Field(t.entityNo(e), t.fieldNo(e, f))
    case Variable(v) => Var(t.varNo(v))
  }

  /** k is the block with these parameters once its names are replaced by what they link to. */
  ghost predicate Compiled(params: L.Params, l: L.Links, k: Block, t: Tables) {
    match params
    case Create(entity, _) => k.Create? && k.entity == t.entityNo(entity) && l.next == Some(k.next)
    case Queue(hasTimeout, _, exitOnOverflow, _, _) =>
      && k.Queue? && l.next == Some(k.next)
      && (if hasTimeout then k.timeout.Some? && l.nextTimeout == Some(k.timeout.value.next) else k.timeout.None?)
      && k.overflow == if exitOnOverflow then l.nextOverflow else None
    case Delay(_, _) => k.Delay? && l.next == Some(k.next) && k.waitQueues == l.waitQueues
    case Seize(_, _, _) => k.Seize? && l.next == Some(k.next) && k.waitQueues == l.waitQueues
      && l.resource == Some(k.resource)
    case Release(_, _) => k.Release? && l.next == Some(k.next) && l.resource == Some(k.resource)
    case Assign(targets, _) =>
      && k.Assign? && l.next == Some(k.next) && |k.assignments| == |targets|
      && forall i: nat :: i < |targets| ==> k.assignments[i].target == TargetOf(t, targets[i])
    case Branch(_, hasElse, _) =>
      && k.Branch? && |k.cases| == |l.cases| && (forall i: nat :: i < |l.cases| ==> k.cases[i].next == l.cases[i])
      && k.orElse == if hasElse then l.orElse else None
    case Terminate => k.Terminate?
  }

  /** m is the source with its links, whatever its expressions and its numbering. */
  ghost predicate Compiles(src: L.Source, links: seq<L.Links>, seizes: seq<seq<nat>>, t: Tables, m: Model) {
    && |m.blocks| == |src.blocks| == |links|
    && (forall b: nat :: b < |links| ==> Compiled(src.blocks[b].params, links[b], m.blocks[b], t))
    && |m.resources| == |src.resources| == |seizes|
    && (forall r: nat :: r < |seizes| ==> m.resources[r].seizes == seizes[r])
    && TablesFit(src, t, m)
  }

  /** What a successful ValidateAndLink leaves behind. */
  ghost predicate PassedLinking(src: L.Source, links: seq<L.Links>, seizes: seq<seq<nat>>) {
    && L.LinkedGraph(src, links)
    && (forall b: nat :: b < |src.blocks| ==> L.BlockOk(src, src.blocks[b]))
    && |seizes| == |src.resources|
    && forall r: nat :: r < |seizes| ==> L.SeizesResolved(src, src.resources[r], seizes[r])
  }

  // ---------- the graph of synchronous calls ----------

  /** Block a can call block b while it handles an entity. */
  predicate Calls(m: Model, a: nat, b: nat) {
    a < |m.blocks| &&
    match m.blocks[a]
    case Queue(_, _, overflow, next) => b == next || overflow == Some(b)
    case Seize(_, _, next) => b == next
    case Release(resource, next) => b == next
      || (resource < |m.resources| && b in WakeList(m, m.resources[resource].seizes))
    case Assign(_, next) => b == next
    case Branch(cases, orElse) => (exists i: nat :: i < |cases| && cases[i].next == b) || orElse == Some(b)
    case _ => false
  }

  function Immediate(m: Model): Acyclic.Edges {
    (a: nat, b: nat) => Calls(m, a, b)
  }

  /** Block a can hand an entity to block b, at once or later. */
  predicate HandsTo(m: Model, a: nat, b: nat) {
    a < |m.blocks| &&
    match m.blocks[a]
    case Create(_, _, _, _, _, next) => b == next
    case Delay(_, _, _, next) => b == next
    case Queue(_, timeout, overflow, next) => b == next || overflow == Some(b)
      || (timeout.Some? && timeout.value.next == b)
    case Release(_, next) => b == next
    case _ => Calls(m, a, b)
  }

  /** No entity is handed to a CREATE. */
  ghost predicate Enterable(m: Model) {
    forall a: nat, b: nat {:trigger HandsTo(m, a, b)} :: HandsTo(m, a, b) && b < |m.blocks| ==> !m.blocks[b].Create?
  }

  /** Every reference of block a leads to a block, wait queues are QUEUEs, and targets exist. */
  ghost predicate References(m: Model, a: nat) {
    && a < |m.blocks|
    && (forall b: nat {:trigger HandsTo(m, a, b)} :: HandsTo(m, a, b) ==> b < |m.blocks|)
    && match m.blocks[a]
       case Create(entity, _, _, _, _, _) => 1 <= entity <= |m.entities|
       case Delay(_, _, waitQueues, _) => forall i: nat :: i < |waitQueues| ==> IsQueue(m, waitQueues[i])
       case Seize(resource, waitQueues, _) => resource < |m.resources| && forall i: nat ::
         i < |waitQueues| ==> IsQueue(m, waitQueues[i])
       case Release(resource, _) =>
         resource < |m.resources| && forall q :: q in WakeList(m, m.resources[resource].seizes) ==> IsQueue(m, q)
       case Assign(assignments, _) => forall i: nat :: i < |assignments| ==> TargetFits(m, assignments[i].target)
       case _ => true
  }

  // ---------- from linking to references ----------

  lemma QueuesArePointers(src: L.Source, links: seq<L.Links>, seizes: seq<seq<nat>>, t: Tables, m: Model,
                          ps: seq<nat>, names: seq<string>)
    requires Compiles(src, links, seizes, t, m) && L.PointAtQueues(src, ps, names)
    ensures forall i: nat :: i < |ps| ==> IsQueue(m, ps[i])
  {
    forall i: nat | i < |ps|
      ensures IsQueue(m, ps[i])
    {
      assert L.Named(src, ps[i], names[i]) && src.blocks[ps[i]].params.Queue?;
      assert Compiled(src.blocks[ps[i]].params, links[ps[i]], m.blocks[ps[i]], t);
    }
  }

  lemma {:induction false} WakeListIsQueues(src: L.Source, links: seq<L.Links>, seizes: seq<seq<nat>>, t: Tables,
                                            m: Model, ss: seq<nat>)
    requires PassedLinking(src, links, seizes) && Compiles(src, links, seizes, t, m)
    ensures forall q :: q in WakeList(m, ss) ==> IsQueue(m, q)
    decreases |ss|
  {
    if ss != [] {
      WakeListIsQueues(src, links, seizes, t, m, ss[1..]);
      var b := ss[0];
      if b < |m.blocks| && m.blocks[b].Seize? {
        assert Compiled(src.blocks[b].params, links[b], m.blocks[b], t)
          && L.Resolved(src, src.blocks[b].params, links[b]);
        QueuesArePointers(src, links, seizes, t, m, links[b].waitQueues, src.blocks[b].params.waitQueues);
      }
    }
  }

  lemma TargetsFit(src: L.Source, links: seq<L.Links>, seizes: seq<seq<nat>>, t: Tables, m: Model, target: L.TargetName)
    requires Compiles(src, links, seizes, t, m) && L.TargetKnown(src, target)
    ensures TargetFits(m, TargetOf(t, target))
  {
  }

  lemma LinkingGivesReferences(src: L.Source, links: seq<L.Links>, seizes: seq<seq<nat>>, t: Tables, m: Model, a: nat)
    requires PassedLinking(src, links, seizes) && Compiles(src, links, seizes, t, m) && a < |m.blocks|
    ensures References(m, a)
  {
    var params, l := src.blocks[a].params, links[a];
    assert Compiled(params, l, m.blocks[a], t) && L.Resolved(src, params, l) && L.BlockOk(src, src.blocks[a]);
    match params
    case Delay(waitQueues, _) => QueuesArePointers(src, links, seizes, t, m, l.waitQueues, waitQueues);
    case Seize(_, waitQueues, _) => QueuesArePointers(src, links, seizes, t, m, l.waitQueues, waitQueues);
    case Release(_, _) => WakeListIsQueues(src, links, seizes, t, m, m.resources[m.blocks[a].resource].seizes);
    case Assign(targets, _) =>
      forall i: nat | i < |targets|
        ensures TargetFits(m, m.blocks[a].assignments[i].target)
      {
        assert targets[i] in targets;
        TargetsFit(src, links, seizes, t, m, targets[i]);
      }
    case _ =>
  }

  // ---------- what the kernel asks beyond ----------

  /** The calls of block a go down, and it hands entities to no CREATE. */
  ghost predicate GoesDown(m: Model, a: nat)
    requires |m.rank| == |m.blocks|
  {
    && (forall b: nat {:trigger Calls(m, a, b)} :: Calls(m, a, b) ==> Below(m, b, a))
    && forall b: nat {:trigger HandsTo(m, a, b)} :: HandsTo(m, a, b) ==> IsTarget(m, b)
  }

  lemma BlockLinkedExactly(m: Model, a: nat)
    requires |m.rank| == |m.blocks| && References(m, a)
    ensures BlockLinked(m, a) <==> GoesDown(m, a)
  {
    if BlockLinked(m, a) {
      GoesDownIfLinked(m, a);
    }
    if GoesDown(m, a) {
      LinkedIfGoesDown(m, a);
    }
  }

  lemma GoesDownIfLinked(m: Model, a: nat)
    requires |m.rank| == |m.blocks| && References(m, a) && BlockLinked(m, a)
    ensures GoesDown(m, a)
  {
    match m.blocks[a]
    case Branch(cases, _) => assert forall i: nat :: i < |cases| ==> cases[i] in cases;
    case _ =>
  }

  lemma LinkedIfGoesDown(m: Model, a: nat)
    requires |m.rank| == |m.blocks| && References(m, a) && GoesDown(m, a)
    ensures BlockLinked(m, a)
  {
    match m.blocks[a]
    case Create(_, _, _, _, _, next) => assert HandsTo(m, a, next);
    case Queue(_, timeout, overflow, next) =>
      assert HandsTo(m, a, next) && Calls(m, a, next);
      assert overflow.Some? ==> HandsTo(m, a, overflow.value) && Calls(m, a, overflow.value);
      assert timeout.Some? ==> HandsTo(m, a, timeout.value.next);
    case Delay(_, _, waitQueues, next) =>
      assert HandsTo(m, a, next);
      forall q | q in waitQueues
        ensures IsQueue(m, q)
      {
        var i: nat :| i < |waitQueues| && waitQueues[i] == q;
      }
    case Seize(_, _, next) => assert HandsTo(m, a, next) && Calls(m, a, next);
    case Release(resource, next) =>
      assert HandsTo(m, a, next) && Calls(m, a, next);
      assert forall q :: q in WakeList(m, m.resources[resource].seizes) ==> Calls(m, a, q);
    case Assign(assignments, next) =>
      assert HandsTo(m, a, next) && Calls(m, a, next);
      forall x | x in assignments
        ensures TargetFits(m, x.target)
      {
        var i: nat :| i < |assignments| && assignments[i] == x;
      }
    case Branch(cases, orElse) =>
      assert orElse.Some? ==> HandsTo(m, a, orElse.value) && Calls(m, a, orElse.value);
      forall c | c in cases
        ensures IsTarget(m, c.next) && Below(m, c.next, a)
      {
        var i: nat :| i < |cases| && cases[i] == c;
        assert HandsTo(m, a, c.next) && Calls(m, a, c.next);
      }
    case Terminate =>
  }

  lemma CallsStayInside(m: Model, a: nat, b: nat)
    requires References(m, a) && Calls(m, a, b)
    ensures b < |m.blocks|
  {
    if m.blocks[a].Release? && b != m.blocks[a].next {
      assert IsQueue(m, b);
    } else {
      assert HandsTo(m, a, b);
    }
  }

  /** Of a compiled model the kernel asks exactly that synchronous calls go down and that no entity
      is handed to a CREATE; all else is what linking has checked. */
  lemma LinkedExactly(src: L.Source, links: seq<L.Links>, seizes: seq<seq<nat>>, t: Tables, m: Model)
    requires PassedLinking(src, links, seizes) && Compiles(src, links, seizes, t, m)
    requires |m.rank| == |m.blocks| && forall a: nat :: a < |m.rank| ==> m.rank[a] < m.top
    ensures Linked(m) <==> Acyclic.Descends(Immediate(m), |m.blocks|, m.rank) && Enterable(m)
  {
    forall a: nat | a < |m.blocks|
      ensures References(m, a) && (BlockLinked(m, a) <==> GoesDown(m, a))
    {
      LinkingGivesReferences(src, links, seizes, t, m, a);
      BlockLinkedExactly(m, a);
    }
    hide BlockLinked;
    if Acyclic.Descends(Immediate(m), |m.blocks|, m.rank) && Enterable(m) {
      forall a: nat | a < |m.blocks|
        ensures GoesDown(m, a)
      {
        forall b: nat | Calls(m, a, b)
          ensures Below(m, b, a)
        {
          CallsStayInside(m, a, b);
          assert Immediate(m)(a, b) && m.rank[b] < m.rank[a];
        }
      }
    }
    if Linked(m) {
      forall a: nat, b: nat | a < |m.blocks| && b < |m.blocks| && Calls(m, a, b)
        ensures m.rank[b] < m.rank[a]
      {
        assert GoesDown(m, a) && Below(m, b, a);
      }
      forall a: nat, b: nat | HandsTo(m, a, b) && b < |m.blocks|
        ensures !m.blocks[b].Create?
      {
        assert GoesDown(m, a) && IsTarget(m, b);
      }
    }
  }

  // ---------- without the numbering ----------

  lemma {:induction false} WakeListIgnoresRank(m: Model, m': Model, ss: seq<nat>)
    requires m' == m.(rank := m'.rank, top := m'.top)
    ensures WakeList(m', ss) == WakeList(m, ss)
    decreases |ss|
  {
    if ss != [] {
      WakeListIgnoresRank(m, m', ss[1..]);
    }
  }

  lemma GraphIgnoresRank(m: Model, m': Model)
    requires m' == m.(rank := m'.rank, top := m'.top)
    ensures forall a: nat, b: nat {:trigger Calls(m', a, b)} {:trigger Calls(m, a, b)} ::
            Calls(m', a, b) == Calls(m, a, b)
    ensures Enterable(m') == Enterable(m)
  {
    forall a: nat, b: nat
      ensures Calls(m', a, b) == Calls(m, a, b) && HandsTo(m', a, b) == HandsTo(m, a, b)
    {
      if a < |m.blocks| && m.blocks[a].Release? && m.blocks[a].resource < |m.resources| {
        WakeListIgnoresRank(m, m', m.resources[m.blocks[a].resource].seizes);
      }
    }
  }

  ghost function Renumbered(m: Model, rank: seq<nat>, top: nat): Model {
    m.(rank := rank, top := top)
  }

  lemma {:induction false} Bounded(rank: seq<nat>) returns (top: nat)
    ensures forall a: nat :: a < |rank| ==> rank[a] < top
  {
    top := 0;
    if rank != [] {
      var k := |rank| - 1;
      var rest := Bounded(rank[..k]);
      top := if rest > rank[k] then rest else rank[k] + 1;
      assert forall a: nat :: a < k ==> rank[a] == rank[..k][a];
    }
  }

  /** A source that passed linking can be run by the kernel exactly if its immediate-transfer graph
      has no cycle and no block hands entities to a CREATE. */
  lemma RunnableExactly(src: L.Source, links: seq<L.Links>, seizes: seq<seq<nat>>, t: Tables, m: Model)
    requires PassedLinking(src, links, seizes) && Compiles(src, links, seizes, t, m)
    ensures (exists rank, top :: Linked(Renumbered(m, rank, top))) <==>
            !Acyclic.HasCycle(Immediate(m), |m.blocks|) && Enterable(m)
  {
    var edge, n := Immediate(m), |m.blocks|;
    Acyclic.RanksExactlyAcyclic(edge, n);
    forall rank, top | |rank| == n && forall a: nat :: a < n ==> rank[a] < top
      ensures Linked(Renumbered(m, rank, top)) <==> Acyclic.Descends(edge, n, rank) && Enterable(m)
    {
      var m' := Renumbered(m, rank, top);
      GraphIgnoresRank(m, m');
      StillCompiles(src, links, seizes, t, m, m');
      LinkedExactly(src, links, seizes, t, m');
    }
    if exists rank, top :: Linked(Renumbered(m, rank, top)) {
      var rank, top :| Linked(Renumbered(m, rank, top));
      assert Acyclic.Descends(edge, n, rank);
    }
    if !Acyclic.HasCycle(edge, n) && Enterable(m) {
      var rank :| Acyclic.Descends(edge, n, rank);
      var top := Bounded(rank);
      assert Linked(Renumbered(m, rank, top));
    }
  }

  lemma StillCompiles(src: L.Source, links: seq<L.Links>, seizes: seq<seq<nat>>, t: Tables, m: Model, m': Model)
    requires Compiles(src, links, seizes, t, m) && m' == m.(rank := m'.rank, top := m'.top)
    ensures Compiles(src, links, seizes, t, m')
  {
  }

  // ---------- linking does not look at the graph of calls ----------

  /** A CREATE that feeds an ASSIGN which is its own next block. */
  function SelfFeeding(): L.Source {
    L.Source(map["job" := {}], {}, [],
             [L.BlockDesc("in", L.Create("job", "loop")), L.BlockDesc("loop", L.Assign([], "loop")),
               L.BlockDesc("out", L.Terminate)])
  }

  function SelfFeedingLinks(): seq<L.Links> {
    [L.NO_LINKS.(next := Some(1)), L.NO_LINKS.(next := Some(1)), L.NO_LINKS]
  }

  lemma SelfFeedingIsLinkable()
    ensures L.UniqueNames(SelfFeeding()) && L.Linkable(SelfFeeding())
            && PassedLinking(SelfFeeding(), SelfFeedingLinks(), [])
  {
    var src, links := SelfFeeding(), SelfFeedingLinks();
    assert src.blocks[0].params.Create? && src.blocks[2].params.Terminate?;
    assert L.Named(src, 1, "loop");
    assert L.BlockOk(src, src.blocks[0]) && L.BlockOk(src, src.blocks[1]) && L.BlockOk(src, src.blocks[2]);
    assert L.LinkedGraph(src, links);
    hide L.BlockOk, L.Resolved;
    assert forall b: nat :: b < 3 ==> L.ReachedBy(src, links, b);
    assert L.WaitQueuesReach(src, links);
  }

  lemma SelfFeedingLoops(t: Tables, m: Model)
    requires Compiles(SelfFeeding(), SelfFeedingLinks(), [], t, m)
    ensures Acyclic.HasCycle(Immediate(m), |m.blocks|)
  {
    assert Compiled(SelfFeeding().blocks[1].params, SelfFeedingLinks()[1], m.blocks[1], t);
    assert Calls(m, 1, 1) && Acyclic.IsWalk(Immediate(m), 3, [1, 1]);
  }

  /** Linking accepts it, and no numbering makes it runnable. */
  lemma LinkingAcceptsCycles(t: Tables, m: Model)
    requires Compiles(SelfFeeding(), SelfFeedingLinks(), [], t, m)
    ensures L.UniqueNames(SelfFeeding()) && L.Linkable(SelfFeeding())
    ensures forall rank, top :: !Linked(Renumbered(m, rank, top))
  {
    SelfFeedingIsLinkable();
    SelfFeedingLoops(t, m);
    hide SelfFeeding, SelfFeedingLinks, Compiles, L.Linkable;
    RunnableExactly(SelfFeeding(), SelfFeedingLinks(), [], t, m);
  }
}
