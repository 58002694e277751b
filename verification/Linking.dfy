/** Linking: names in block and resource descriptions are replaced by references to blocks. */
module Linking {
  import opened Options
  import opened Reachability

  type BlockId = nat

  datatype TargetName = FieldOf(entity: string, field: string) | Variable(name: string)

  /** A block's parameters as parsed, references still being names. */
  datatype Params =
    | Create(entity: string, next: string)
    | Queue(hasTimeout: bool, nextTimeout: string, exitOnOverflow: bool, nextOverflow: string, next: string)
    | Delay(waitQueues: seq<string>, next: string)
    | Seize(resource: string, waitQueues: seq<string>, next: string)
    | Release(resource: string, next: string)
    | Assign(targets: seq<TargetName>, next: string)
    | Branch(cases: seq<string>, hasElse: bool, elseName: string)
    | Terminate

  datatype BlockDesc = BlockDesc(name: string, params: Params)

  datatype ResourceDesc = ResourceDesc(name: string, seizes: seq<string>)

  /** Entities by name with the names of their fields. */
  datatype Source = Source(
    entities: map<string, set<string>>, vars: set<string>, resources: seq<ResourceDesc>, blocks: seq<BlockDesc>)

  /** The pointers that linking fills in. */
  datatype Links = Links(
    next: Option<BlockId>, nextTimeout: Option<BlockId>, nextOverflow: Option<BlockId>,
    waitQueues: seq<BlockId>, cases: seq<BlockId>, orElse: Option<BlockId>, resource: Option<nat>)

  const NO_LINKS := Links(None, None, None, [], [], None, None)

  /** Parsed models have uniquely named blocks and resources. */
  ghost predicate UniqueNames(m: Source) {
    && (forall i, j :: 0 <= i < j < |m.blocks| ==> m.blocks[i].name != m.blocks[j].name)
    && (forall i, j :: 0 <= i < j < |m.resources| ==> m.resources[i].name != m.resources[j].name)
  }

  // ---------- which models link ----------

  /** i is the block called name. */
  predicate Named(m: Source, i: nat, name: string) {
    i < |m.blocks| && m.blocks[i].name == name
  }

  predicate HasBlock(m: Source, name: string) {
    exists i: nat :: i < |m.blocks| && m.blocks[i].name == name
  }

  predicate HasQueue(m: Source, name: string) {
    exists i: nat :: i < |m.blocks| && m.blocks[i].name == name && m.blocks[i].params.Queue?
  }

  predicate HasSeize(m: Source, name: string, resource: string) {
    exists i: nat ::
      i < |m.blocks| && m.blocks[i].name == name && m.blocks[i].params.Seize? && m.blocks[i].params.resource == resource
  }

  predicate HasResource(m: Source, name: string) {
    exists r: nat :: r < |m.resources| && m.resources[r].name == name
  }

  predicate Lists(m: Source, resource: string, seize: string) {
    exists r: nat :: r < |m.resources| && m.resources[r].name == resource && seize in m.resources[r].seizes
  }

  predicate TargetKnown(m: Source, t: TargetName) {
    match t
    case FieldOf(e, f) => e in m.entities && f in m.entities[e]
    case Variable(v) => v in m.vars
  }

  /** Every name in the block's parameters refers to something of the right kind. */
  predicate BlockOk(m: Source, b: BlockDesc) {
    match b.params
    case Create(entity, next) => entity in m.entities && HasBlock(m, next)
    case Queue(hasTimeout, nextTimeout, exitOnOverflow, nextOverflow, next) =>
      && HasBlock(m, next)
      && (if hasTimeout then nextTimeout != "" && HasBlock(m, nextTimeout) else nextTimeout == "")
      && (if exitOnOverflow then nextOverflow != "" && HasBlock(m, nextOverflow) else nextOverflow == "")
    case Delay(waitQueues, next) => HasBlock(m, next) && forall q <- waitQueues :: HasQueue(m, q)
    case Seize(resource, waitQueues, next) =>
      && HasResource(m, resource) && HasBlock(m, next) && (forall q <- waitQueues :: HasQueue(m, q))
      && Lists(m, resource, b.name)
    case Release(resource, next) => HasResource(m, resource) && HasBlock(m, next)
    case Assign(targets, next) => HasBlock(m, next) && forall t <- targets :: TargetKnown(m, t)
    case Branch(cases, hasElse, elseName) => (forall c <- cases :: HasBlock(m, c))
      && (hasElse ==> HasBlock(m, elseName))
    case Terminate => true
  }

  predicate ResourceOk(m: Source, r: ResourceDesc) {
    forall s <- r.seizes :: HasSeize(m, s, r.name)
  }

  // ---------- what links mean ----------

  predicate Points(m: Source, p: Option<BlockId>, name: string) {
    p.Some? && Named(m, p.value, name)
  }

  ghost predicate PointAt(m: Source, ps: seq<BlockId>, names: seq<string>) {
    |ps| == |names| && forall i: nat :: i < |ps| ==> Named(m, ps[i], names[i])
  }

  ghost predicate PointAtQueues(m: Source, ps: seq<BlockId>, names: seq<string>) {
    |ps| == |names| && forall i: nat :: i < |ps| ==> Named(m, ps[i], names[i]) && m.blocks[ps[i]].params.Queue?
  }

  predicate PointsAtResource(m: Source, p: Option<nat>, name: string) {
    p.Some? && p.value < |m.resources| && m.resources[p.value].name == name
  }

  /** The block's pointers are the blocks and the resource that its parameters name. */
  ghost predicate Resolved(m: Source, params: Params, l: Links) {
    match params
    case Create(_, next) => Points(m, l.next, next)
    case Queue(hasTimeout, nextTimeout, exitOnOverflow, nextOverflow, next) =>
      && Points(m, l.next, next)
      && (hasTimeout ==> Points(m, l.nextTimeout, nextTimeout))
      && (exitOnOverflow ==> Points(m, l.nextOverflow, nextOverflow))
    case Delay(waitQueues, next) => Points(m, l.next, next) && PointAtQueues(m, l.waitQueues, waitQueues)
    case Seize(resource, waitQueues, next) =>
      Points(m, l.next, next) && PointAtQueues(m, l.waitQueues, waitQueues) && PointsAtResource(m, l.resource, resource)
    case Release(resource, next) => Points(m, l.next, next) && PointsAtResource(m, l.resource, resource)
    case Assign(_, next) => Points(m, l.next, next)
    case Branch(cases, hasElse, elseName) => PointAt(m, l.cases, cases) && (hasElse ==> Points(m, l.orElse, elseName))
    case Terminate => true
  }

  /** The linked model is closed: no reference leads nowhere or to the wrong thing. */
  ghost predicate LinkedGraph(m: Source, links: seq<Links>) {
    |links| == |m.blocks| && forall b: nat :: b < |links| ==> Resolved(m, m.blocks[b].params, links[b])
  }

  function HopOf(params: Params, l: Links): Hop {
    match params
    case Assign(_, _) => if l.next.Some? then Pass(l.next.value) else Stay
    case Branch(_, hasElse, _) => Fork(l.cases, if hasElse then l.orElse else None)
    case _ => Stay
  }

  function HopsOf(m: Source, links: seq<Links>): seq<Hop>
    requires |links| == |m.blocks|
  {
    seq(|links|, (b: nat) requires b < |links| => HopOf(m.blocks[b].params, links[b]))
  }

  lemma HopsAreClosed(m: Source, links: seq<Links>)
    requires LinkedGraph(m, links)
    ensures Closed(HopsOf(m, links))
  {
    var graph := HopsOf(m, links);
    forall u, v | 0 <= u < |graph| && v in Successors(graph[u])
      ensures v < |graph|
    {
      assert Resolved(m, m.blocks[u].params, links[u]);
    }
  }

  /** The wait queues of block b, if it has any, reach it. */
  ghost predicate LeadsTo(m: Source, links: seq<Links>, q: nat, b: nat)
    requires |links| == |m.blocks|
  {
    q < |links| && links[q].next.Some? && CanReach(HopsOf(m, links), links[q].next.value, b)
  }

  ghost predicate ReachedBy(m: Source, links: seq<Links>, b: nat)
    requires |links| == |m.blocks| && b < |links|
  {
    m.blocks[b].params.Delay? || m.blocks[b].params.Seize? ==>
      forall q <- links[b].waitQueues :: LeadsTo(m, links, q, b)
  }

  /** Every wait queue of every DELAY and SEIZE leads to it through ASSIGN and BRANCH blocks. */
  ghost predicate WaitQueuesReach(m: Source, links: seq<Links>)
    requires |links| == |m.blocks|
  {
    forall b: nat {:trigger ReachedBy(m, links, b)} :: b < |links| ==> ReachedBy(m, links, b)
  }

  // ---------- names determine the links ----------

  lemma NamedOnce(m: Source, i: nat, j: nat, name: string)
    requires UniqueNames(m) && Named(m, i, name) && Named(m, j, name)
    ensures i == j
  {
  }

  lemma PointersAgree(m: Source, ps: seq<BlockId>, qs: seq<BlockId>, names: seq<string>)
    requires UniqueNames(m) && PointAt(m, ps, names) && PointAt(m, qs, names)
    ensures ps == qs
  {
    forall i: nat | i < |ps|
      ensures ps[i] == qs[i]
    {
      NamedOnce(m, ps[i], qs[i], names[i]);
    }
  }

  lemma QueuesArePointers(m: Source, ps: seq<BlockId>, names: seq<string>)
    requires PointAtQueues(m, ps, names)
    ensures PointAt(m, ps, names)
  {
  }

  lemma BlockLinksAgree(m: Source, params: Params, k: Links, l: Links)
    requires UniqueNames(m) && Resolved(m, params, k) && Resolved(m, params, l)
    ensures HopOf(params, k) == HopOf(params, l)
    ensures params.Queue? ==> k.next == l.next
    ensures params.Delay? || params.Seize? ==> k.waitQueues == l.waitQueues
  {
    match params
    case Delay(waitQueues, _) =>
      QueuesArePointers(m, k.waitQueues, waitQueues);
      QueuesArePointers(m, l.waitQueues, waitQueues);
      PointersAgree(m, k.waitQueues, l.waitQueues, waitQueues);
    case Seize(_, waitQueues, _) =>
      QueuesArePointers(m, k.waitQueues, waitQueues);
      QueuesArePointers(m, l.waitQueues, waitQueues);
      PointersAgree(m, k.waitQueues, l.waitQueues, waitQueues);
    case Branch(cases, hasElse, elseName) =>
      PointersAgree(m, k.cases, l.cases, cases);
    case _ =>
  }

  /** Reachability is a property of the names: all resolved links agree on it. */
  lemma ReachAgrees(m: Source, ks: seq<Links>, ls: seq<Links>)
    requires UniqueNames(m) && LinkedGraph(m, ks) && LinkedGraph(m, ls) && WaitQueuesReach(m, ks)
    ensures WaitQueuesReach(m, ls)
  {
    forall b: nat | b < |ks|
      ensures HopOf(m.blocks[b].params, ks[b]) == HopOf(m.blocks[b].params, ls[b])
    {
      BlockLinksAgree(m, m.blocks[b].params, ks[b], ls[b]);
    }
    assert HopsOf(m, ks) == HopsOf(m, ls);
    forall b: nat | b < |ls|
      ensures ReachedBy(m, ls, b)
    {
      assert ReachedBy(m, ks, b);
      BlockLinksAgree(m, m.blocks[b].params, ks[b], ls[b]);
      forall q | (m.blocks[b].params.Delay? || m.blocks[b].params.Seize?) && q in ls[b].waitQueues
        ensures q < |ls| && ls[q].next.Some? && CanReach(HopsOf(m, ls), ls[q].next.value, b)
      {
        WaitingIsQueue(m, ls, b, q);
        BlockLinksAgree(m, m.blocks[q].params, ks[q], ls[q]);
      }
    }
  }

  lemma WaitingIsQueue(m: Source, links: seq<Links>, b: nat, q: nat)
    requires LinkedGraph(m, links) && b < |links| && (m.blocks[b].params.Delay? || m.blocks[b].params.Seize?)
             && q in links[b].waitQueues
    ensures q < |links| && m.blocks[q].params.Queue? && links[q].next.Some? && links[q].next.value < |links|
  {
    assert Resolved(m, m.blocks[b].params, links[b]);
    assert q < |links| && m.blocks[q].params.Queue?;
    assert Resolved(m, m.blocks[q].params, links[q]);
  }

  // ---------- the pass ----------

  predicate HasCreate(m: Source) {
    exists b: nat :: b < |m.blocks| && m.blocks[b].params.Create?
  }

  predicate HasTerminate(m: Source) {
    exists b: nat :: b < |m.blocks| && m.blocks[b].params.Terminate?
  }

  /** Exactly the models that the pass accepts. */
  ghost predicate Linkable(m: Source) {
    && HasCreate(m) && HasTerminate(m)
    && (forall b: nat :: b < |m.blocks| ==> BlockOk(m, m.blocks[b]))
    && (forall r: nat :: r < |m.resources| ==> ResourceOk(m, m.resources[r]))
    && exists links: seq<Links> :: LinkedGraph(m, links) && WaitQueuesReach(m, links)
  }

  ghost predicate SeizesResolved(m: Source, r: ResourceDesc, ps: seq<BlockId>) {
    |ps| == |r.seizes| && forall i: nat ::
      i < |ps| ==>
        Named(m, ps[i], r.seizes[i]) && m.blocks[ps[i]].params.Seize? && m.blocks[ps[i]].params.resource == r.name
  }

  class Linker {
    const m: Source
    var blockByName: map<string, BlockId>
    var resourceByName: map<string, nat>
    var links: seq<Links>
    var seizes: seq<seq<BlockId>>

    /** The name tables are complete and correct. */
    ghost predicate Valid()
      reads this
    {
      && UniqueNames(m) && |links| == |m.blocks| && |seizes| == |m.resources|
      && (forall name :: name in blockByName <==> HasBlock(m, name))
      && (forall name :: name in blockByName ==> Named(m, blockByName[name], name))
      && (forall name :: name in resourceByName <==> HasResource(m, name))
      && (forall name ::
           name in resourceByName ==>
           resourceByName[name] < |m.resources| && m.resources[resourceByName[name]].name == name)
    }

    constructor (m: Source)
      requires UniqueNames(m)
      ensures Valid() && this.m == m
    {
      this.m := m;
      links := seq(|m.blocks|, b => NO_LINKS);
      seizes := seq(|m.resources|, r => []);
      blockByName := map[];
      resourceByName := map[];
      new;
      for b := 0 to |m.blocks|
        invariant |links| == |m.blocks| && |seizes| == |m.resources| && resourceByName == map[]
        invariant forall name :: name in blockByName <==> exists i: nat :: i < b && m.blocks[i].name == name
        invariant forall name :: name in blockByName ==> Named(m, blockByName[name], name)
      {
        blockByName := blockByName[m.blocks[b].name := b];
      }
      for r := 0 to |m.resources|
        invariant |links| == |m.blocks| && |seizes| == |m.resources|
        invariant forall name :: name in blockByName <==> HasBlock(m, name)
        invariant forall name :: name in blockByName ==> Named(m, blockByName[name], name)
        invariant forall name :: name in resourceByName <==> exists i: nat :: i < r && m.resources[i].name == name
        invariant forall name ::
                  name in resourceByName ==>
                  resourceByName[name] < |m.resources| && m.resources[resourceByName[name]].name == name
      {
        resourceByName := resourceByName[m.resources[r].name := r];
      }
    }

    method RequireBlock(name: string) returns (p: Option<BlockId>)
      requires Valid()
      ensures p.Some? == HasBlock(m, name)
      ensures p.Some? ==> Named(m, p.value, name)
    {
      p := if name in blockByName then Some(blockByName[name]) else None;
    }

    method RequireQueue(name: string) returns (p: Option<BlockId>)
      requires Valid()
      ensures p.Some? == HasQueue(m, name)
      ensures p.Some? ==> Named(m, p.value, name) && m.blocks[p.value].params.Queue?
    {
      p := RequireBlock(name);
      if p.Some? && !m.blocks[p.value].params.Queue? {
        p := None;
      }
    }

    method RequireSeize(name: string, resource: string) returns (p: Option<BlockId>)
      requires Valid()
      ensures p.Some? == HasSeize(m, name, resource)
      ensures p.Some? ==>
                Named(m, p.value, name) && m.blocks[p.value].params.Seize?
                && m.blocks[p.value].params.resource == resource
    {
      p := RequireBlock(name);
      if p.Some? && !(m.blocks[p.value].params.Seize? && m.blocks[p.value].params.resource == resource) {
        p := None;
      }
    }

    method RequireBlocks(names: seq<string>) returns (ok: bool, ps: seq<BlockId>)
      requires Valid()
      ensures ok == forall c <- names :: HasBlock(m, c)
      ensures ok ==> PointAt(m, ps, names)
    {
      ps := [];
      for i := 0 to |names|
        invariant PointAt(m, ps, names[..i])
        invariant forall c <- names[..i] :: HasBlock(m, c)
      {
        var p := RequireBlock(names[i]);
        if p.None? {
          assert names[i] in names;
          return false, ps;
        }
        ps := ps + [p.value];
        assert names[..i + 1] == names[..i] + [names[i]];
      }
      assert names[..|names|] == names;
      ok := true;
    }

    method RequireQueues(names: seq<string>) returns (ok: bool, ps: seq<BlockId>)
      requires Valid()
      ensures ok == forall q <- names :: HasQueue(m, q)
      ensures ok ==> PointAtQueues(m, ps, names)
    {
      ps := [];
      for i := 0 to |names|
        invariant PointAtQueues(m, ps, names[..i])
        invariant forall q <- names[..i] :: HasQueue(m, q)
      {
        var p := RequireQueue(names[i]);
        if p.None? {
          assert names[i] in names;
          return false, ps;
        }
        ps := ps + [p.value];
        assert names[..i + 1] == names[..i] + [names[i]];
      }
      assert names[..|names|] == names;
      ok := true;
    }

    /** Only the links of block b have changed. */
    twostate predicate OnlyLinks(b: BlockId)
      reads this
    {
      && blockByName == old(blockByName) && resourceByName == old(resourceByName) && seizes == old(seizes)
      && |links| == |old(links)| && forall a :: 0 <= a < |links| && a != b ==> links[a] == old(links[a])
    }

    method SetNext(b: BlockId, name: string) returns (ok: bool)
      requires Valid() && b < |m.blocks|
      modifies this`links
      ensures Valid() && OnlyLinks(b)
      ensures ok == HasBlock(m, name)
      ensures links[b] == old(links[b]).(next := links[b].next) && (ok ==> Points(m, links[b].next, name))
    {
      var p := RequireBlock(name);
      ok := p.Some?;
      if ok {
        links := links[b := links[b].(next := p)];
      }
    }

    method LinkQueue(b: BlockId) returns (ok: bool)
      requires Valid() && b < |m.blocks| && m.blocks[b].params.Queue?
      modifies this`links
      ensures Valid() && OnlyLinks(b)
      ensures ok == BlockOk(m, m.blocks[b])
      ensures ok ==> Resolved(m, m.blocks[b].params, links[b])
    {
      var params := m.blocks[b].params;
      ok := SetNext(b, params.next);
      if !ok {
        return;
      }
      if params.hasTimeout != (params.nextTimeout != "") {
        return false;
      }
      if params.hasTimeout {
        var p := RequireBlock(params.nextTimeout);
        if p.None? {
          return false;
        }
        links := links[b := links[b].(nextTimeout := p)];
      }
      if params.exitOnOverflow != (params.nextOverflow != "") {
        return false;
      }
      if params.exitOnOverflow {
        var p := RequireBlock(params.nextOverflow);
        if p.None? {
          return false;
        }
        links := links[b := links[b].(nextOverflow := p)];
      }
    }

    method LinkDelay(b: BlockId) returns (ok: bool)
      requires Valid() && b < |m.blocks| && m.blocks[b].params.Delay?
      modifies this`links
      ensures Valid() && OnlyLinks(b)
      ensures ok == BlockOk(m, m.blocks[b])
      ensures ok ==> Resolved(m, m.blocks[b].params, links[b])
    {
      ok := SetNext(b, m.blocks[b].params.next);
      if !ok {
        return;
      }
      var ps: seq<BlockId>;
      ok, ps := RequireQueues(m.blocks[b].params.waitQueues);
      links := links[b := links[b].(waitQueues := ps)];
    }

    method LinkSeize(b: BlockId) returns (ok: bool)
      requires Valid() && b < |m.blocks| && m.blocks[b].params.Seize?
      modifies this`links
      ensures Valid() && OnlyLinks(b)
      ensures ok == BlockOk(m, m.blocks[b])
      ensures ok ==> Resolved(m, m.blocks[b].params, links[b])
    {
      var params := m.blocks[b].params;
      if params.resource !in resourceByName {
        return false;
      }
      var r := resourceByName[params.resource];
      links := links[b := links[b].(resource := Some(r))];
      ok := SetNext(b, params.next);
      if !ok {
        return;
      }
      var ps: seq<BlockId>;
      ok, ps := RequireQueues(params.waitQueues);
      links := links[b := links[b].(waitQueues := ps)];
      ok := ok && m.blocks[b].name in m.resources[r].seizes;
    }

    method LinkBranch(b: BlockId) returns (ok: bool)
      requires Valid() && b < |m.blocks| && m.blocks[b].params.Branch?
      modifies this`links
      ensures Valid() && OnlyLinks(b)
      ensures ok == BlockOk(m, m.blocks[b])
      ensures ok ==> Resolved(m, m.blocks[b].params, links[b])
    {
      var params := m.blocks[b].params;
      var cases: seq<BlockId>;
      ok, cases := RequireBlocks(params.cases);
      if !ok {
        return;
      }
      links := links[b := links[b].(cases := cases)];
      if params.hasElse {
        var p := RequireBlock(params.elseName);
        if p.None? {
          return false;
        }
        links := links[b := links[b].(orElse := p)];
      }
      ok := true;
    }

    method CheckTargets(targets: seq<TargetName>) returns (ok: bool)
      ensures ok == forall t <- targets :: TargetKnown(m, t)
    {
      for i := 0 to |targets|
        invariant forall t <- targets[..i] :: TargetKnown(m, t)
      {
        if !TargetKnown(m, targets[i]) {
          assert targets[i] in targets;
          return false;
        }
        assert targets[..i + 1] == targets[..i] + [targets[i]];
      }
      assert targets[..|targets|] == targets;
      ok := true;
    }

    method LinkBlock(b: BlockId) returns (ok: bool)
      requires Valid() && b < |m.blocks|
      modifies this`links
      ensures Valid() && OnlyLinks(b)
      ensures ok == BlockOk(m, m.blocks[b])
      ensures ok ==> Resolved(m, m.blocks[b].params, links[b])
    {
      match m.blocks[b].params
      case Create(entity, next) =>
        if entity !in m.entities {
          return false;
        }
        ok := SetNext(b, next);
      case Queue(_, _, _, _, _) => ok := LinkQueue(b);
      case Delay(_, _) => ok := LinkDelay(b);
      case Seize(_, _, _) => ok := LinkSeize(b);
      case Release(resource, next) =>
        if resource !in resourceByName {
          return false;
        }
        links := links[b := links[b].(resource := Some(resourceByName[resource]))];
        ok := SetNext(b, next);
      case Assign(targets, next) =>
        ok := SetNext(b, next);
        if ok {
          ok := CheckTargets(targets);
        }
      case Branch(_, _, _) => ok := LinkBranch(b);
      case Terminate => ok := true;
    }

    method LinkResource(r: nat) returns (ok: bool)
      requires Valid() && r < |m.resources|
      modifies this`seizes
      ensures Valid() && |seizes| == |old(seizes)| && forall q ::
              0 <= q < |seizes| && q != r ==> seizes[q] == old(seizes[q])
      ensures ok == ResourceOk(m, m.resources[r])
      ensures ok ==> SeizesResolved(m, m.resources[r], seizes[r])
    {
      var names := m.resources[r].seizes;
      seizes := seizes[r := []];
      for i := 0 to |names|
        invariant Valid() && |seizes| == |old(seizes)| && forall q ::
                  0 <= q < |seizes| && q != r ==> seizes[q] == old(seizes[q])
        invariant SeizesResolved(m, ResourceDesc(m.resources[r].name, names[..i]), seizes[r])
        invariant forall s <- names[..i] :: HasSeize(m, s, m.resources[r].name)
      {
        var p := RequireSeize(names[i], m.resources[r].name);
        if p.None? {
          assert names[i] in names;
          return false;
        }
        seizes := seizes[r := seizes[r] + [p.value]];
        assert names[..i + 1] == names[..i] + [names[i]];
      }
      assert names[..|names|] == names;
      ok := true;
    }

    method LinkBlocks() returns (ok: bool)
      requires Valid()
      modifies this`links
      ensures Valid() && seizes == old(seizes)
      ensures ok == forall b: nat :: b < |m.blocks| ==> BlockOk(m, m.blocks[b])
      ensures ok ==> LinkedGraph(m, links)
    {
      for b := 0 to |m.blocks|
        invariant Valid() && seizes == old(seizes)
        invariant forall a: nat :: a < b ==> BlockOk(m, m.blocks[a]) && Resolved(m, m.blocks[a].params, links[a])
      {
        ok := LinkBlock(b);
        if !ok {
          return;
        }
      }
      ok := true;
    }

    method LinkResources() returns (ok: bool)
      requires Valid()
      modifies this`seizes
      ensures Valid() && links == old(links)
      ensures ok == forall r: nat :: r < |m.resources| ==> ResourceOk(m, m.resources[r])
      ensures ok ==> forall r: nat :: r < |m.resources| ==> SeizesResolved(m, m.resources[r], seizes[r])
    {
      for r := 0 to |m.resources|
        invariant Valid() && links == old(links)
        invariant forall q: nat ::
                  q < r ==> ResourceOk(m, m.resources[q]) && SeizesResolved(m, m.resources[q], seizes[q])
      {
        ok := LinkResource(r);
        if !ok {
          return;
        }
      }
      ok := true;
    }

    /** validateWaitQueueReachability. */
    method CheckReachability() returns (ok: bool)
      requires Valid() && LinkedGraph(m, links)
      ensures ok == WaitQueuesReach(m, links)
    {
      HopsAreClosed(m, links);
      for b := 0 to |m.blocks|
        invariant forall a: nat :: a < b ==> ReachedBy(m, links, a)
      {
        hide LinkedGraph, Closed, HopsOf, LeadsTo, HasBlock, HasResource, Named, UniqueNames;
        if m.blocks[b].params.Delay? || m.blocks[b].params.Seize? {
          ok := CheckQueues(b);
          if !ok {
            return;
          }
        }
      }
      ok := true;
    }

    method CheckQueue(b: BlockId, q: BlockId) returns (ok: bool)
      requires |links| == |m.blocks| && LinkedGraph(m, links) && Closed(HopsOf(m, links)) && b < |m.blocks|
      requires (m.blocks[b].params.Delay? || m.blocks[b].params.Seize?) && q in links[b].waitQueues
      ensures ok == LeadsTo(m, links, q, b)
    {
      hide LinkedGraph, Closed, CanReach;
      WaitingIsQueue(m, links, b, q);
      ok := CanReachWaitTarget(HopsOf(m, links), links[q].next.value, b);
    }

    method CheckQueues(b: BlockId) returns (ok: bool)
      requires Valid() && LinkedGraph(m, links) && Closed(HopsOf(m, links)) && b < |m.blocks|
      requires m.blocks[b].params.Delay? || m.blocks[b].params.Seize?
      ensures ok == ReachedBy(m, links, b)
    {
      var queues := links[b].waitQueues;
      hide LinkedGraph, Closed, LeadsTo, HasBlock, HasResource, Named, UniqueNames, HopsOf;
      for i := 0 to |queues|
        invariant forall j :: 0 <= j < i ==> LeadsTo(m, links, queues[j], b)
      {
        ok := CheckQueue(b, queues[i]);
        if !ok {
          return;
        }
      }
      ok := true;
    }

    method HasRequiredBlocks() returns (ok: bool)
      ensures ok == (HasCreate(m) && HasTerminate(m))
    {
      var hasCreate, hasTerminate := false, false;
      for b := 0 to |m.blocks|
        invariant hasCreate == exists a: nat :: a < b && m.blocks[a].params.Create?
        invariant hasTerminate == exists a: nat :: a < b && m.blocks[a].params.Terminate?
      {
        match m.blocks[b].params
        case Create(_, _) => hasCreate := true;
        case Terminate => hasTerminate := true;
        case _ =>
      }
      ok := hasCreate && hasTerminate;
    }

    /** Accepts exactly the linkable models, and closes the graph of those. */
    method ValidateAndLink() returns (ok: bool)
      requires Valid()
      modifies this
      ensures Valid() && ok == Linkable(m)
      ensures ok ==> LinkedGraph(m, links) && WaitQueuesReach(m, links)
      ensures ok ==> forall r: nat :: r < |m.resources| ==>
                SeizesResolved(m, m.resources[r], seizes[r])
                  && (set s | s in seizes[r]) == UsersOf(m, m.resources[r].name)
    {
      ok := HasRequiredBlocks();
      if !ok {
        return;
      }
      ok := LinkBlocks();
      if !ok {
        return;
      }
      ok := LinkResources();
      if !ok {
        return;
      }
      ok := CheckReachability();
      if ok {
        forall r: nat | r < |m.resources|
          ensures (set s | s in seizes[r]) == UsersOf(m, m.resources[r].name)
        {
          SeizesAreUsers(m, r, seizes[r]);
        }
      } else {
        forall other: seq<Links> | LinkedGraph(m, other)
          ensures !WaitQueuesReach(m, other)
        {
          if WaitQueuesReach(m, other) {
            ReachAgrees(m, other, links);
          }
        }
      }
    }
  }

  /** The SEIZE blocks that use a resource. */
  function UsersOf(m: Source, resource: string): set<BlockId> {
    set b: nat | b < |m.blocks| && m.blocks[b].params.Seize? && m.blocks[b].params.resource == resource
  }

  /** A resource lists a SEIZE exactly if that SEIZE uses it: each side checks the other. */
  lemma SeizesAreUsers(m: Source, r: nat, ps: seq<BlockId>)
    requires UniqueNames(m) && r < |m.resources| && SeizesResolved(m, m.resources[r], ps)
    requires forall b: nat :: b < |m.blocks| ==> BlockOk(m, m.blocks[b])
    ensures (set s | s in ps) == UsersOf(m, m.resources[r].name)
  {
    forall b | b in UsersOf(m, m.resources[r].name)
      ensures b in ps
    {
      assert BlockOk(m, m.blocks[b]);
      var q: nat :| q < |m.resources| && m.resources[q].name == m.resources[r].name
        && m.blocks[b].name in m.resources[q].seizes;
      assert q == r;
      var i: nat :| i < |m.resources[r].seizes| && m.resources[r].seizes[i] == m.blocks[b].name;
      NamedOnce(m, ps[i], b, m.blocks[b].name);
    }
  }
}
