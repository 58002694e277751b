/** The depth-first search that decides whether the head of a wait queue can get to the block that
    wakes the queue. All branches share one visited set, and the graph may have cycles. */
module Reachability {
  import opened Options

  /** How an entity leaves a block at once: not at all, to one next block, or by a BRANCH. */
  datatype Hop = Stay | Pass(next: nat) | Fork(cases: seq<nat>, orElse: Option<nat>)

  function Successors(h: Hop): seq<nat> {
    match h
    case Stay => []
    case Pass(next) => [next]
    case Fork(cases, orElse) => cases + match orElse case None => [] case Some(e) => [e]
  }

  ghost predicate Closed(graph: seq<Hop>) {
    forall u, v {:trigger v in Successors(graph[u])} :: 0 <= u < |graph| && v in Successors(graph[u]) ==> v < |graph|
  }

  /** A way from u to v that passes only blocks an entity leaves at once. */
  ghost predicate IsPath(graph: seq<Hop>, path: seq<nat>, u: nat, v: nat) {
    && path != [] && path[0] == u && path[|path| - 1] == v
    && (forall i :: 0 <= i < |path| ==> path[i] < |graph|)
    && (forall i {:trigger path[i]} :: 0 <= i < |path| - 1 ==> path[i + 1] in Successors(graph[path[i]]))
  }

  ghost predicate CanReach(graph: seq<Hop>, u: nat, v: nat) {
    exists path :: IsPath(graph, path, u, v)
  }

  lemma PathPrepends(graph: seq<Hop>, u: nat, w: nat, v: nat)
    requires u < |graph| && w in Successors(graph[u]) && CanReach(graph, w, v)
    ensures CanReach(graph, u, v)
  {
    var path :| IsPath(graph, path, w, v);
    var longer := [u] + path;
    forall i | 0 <= i < |longer| - 1
      ensures longer[i + 1] in Successors(graph[longer[i]])
    {
      if i > 0 {
        assert longer[i] == path[i - 1] && longer[i + 1] == path[i];
        assert path[i - 1 + 1] in Successors(graph[path[i - 1]]);
      }
    }
    assert IsPath(graph, longer, u, v);
  }

  /** The successors of newly visited blocks have been visited. */
  ghost predicate Explored(graph: seq<Hop>, before: set<nat>, after: set<nat>) {
    forall u, w {:trigger u in after, w in Successors(graph[u])} ::
      u < |graph| && u in after && u !in before && w in Successors(graph[u]) ==> w in after
  }

  /** From a set of blocks without outgoing edges no path leads to a block outside it. */
  lemma {:induction false} NoWayOut(graph: seq<Hop>, reached: set<nat>, path: seq<nat>, u: nat, v: nat)
    requires u in reached && v !in reached && Explored(graph, {}, reached)
    ensures !IsPath(graph, path, u, v)
    decreases |path|
  {
    if IsPath(graph, path, u, v) {
      assert |path| > 1;
      assert path[0 + 1] in Successors(graph[path[0]]);
      var rest := path[1..];
      assert forall i :: 0 <= i < |rest| ==> rest[i] == path[i + 1];
      assert IsPath(graph, rest, path[1], v);
      NoWayOut(graph, reached, rest, path[1], v);
    }
  }

  class Search {
    const graph: seq<Hop>
    const target: nat
    var visited: set<nat>

    constructor (graph: seq<Hop>, target: nat)
      ensures this.graph == graph && this.target == target && visited == {}
    {
      this.graph, this.target, visited := graph, target, {};
    }

    ghost function Unvisited(): set<nat>
      reads this
    {
      set u: nat | u < |graph| && u !in visited
    }

    /** canReachWaitTargetFrom. */
    method From(current: nat) returns (found: bool)
      requires Closed(graph) && current < |graph| && target !in visited
      modifies this
      ensures old(visited) <= visited && target !in visited
      ensures found ==> CanReach(graph, current, target)
      ensures !found ==> current in visited && Explored(graph, old(visited), visited)
      decreases Unvisited(), 1
    {
      if current == target {
        assert IsPath(graph, [current], current, target);
        return true;
      }
      if current in visited {
        return false;
      }
      ghost var before := Unvisited();
      visited := visited + {current};
      assert current in before && current !in Unvisited();
      assert Unvisited() < before;
      match graph[current]
      case Stay =>
        found := false;
      case Pass(next) =>
        assert next in Successors(graph[current]);
        found := From(next);
        if found {
          PathPrepends(graph, current, next, target);
        }
      case Fork(cases, orElse) =>
        found := FromAny(Successors(graph[current]), current);
    }

    /** Tries the branches in order until one succeeds. */
    method FromAny(nexts: seq<nat>, ghost u: nat) returns (found: bool)
      requires Closed(graph) && u < |graph| && u in visited && target !in visited
      requires forall v :: v in nexts ==> v in Successors(graph[u])
      modifies this
      ensures old(visited) <= visited && target !in visited
      ensures found ==> CanReach(graph, u, target)
      ensures !found ==> (forall v :: v in nexts ==> v in visited) && Explored(graph, old(visited), visited)
      decreases Unvisited(), 2
    {
      for i := 0 to |nexts|
        invariant old(visited) <= visited && target !in visited
        invariant forall j :: 0 <= j < i ==> nexts[j] in visited
        invariant Explored(graph, old(visited), visited)
      {
        assert nexts[i] in nexts;
        found := From(nexts[i]);
        if found {
          PathPrepends(graph, u, nexts[i], target);
          return;
        }
      }
      found := false;
    }
  }

  /** The check is exact, also on cyclic graphs. */
  method CanReachWaitTarget(graph: seq<Hop>, start: nat, target: nat) returns (found: bool)
    requires Closed(graph) && start < |graph|
    ensures found <==> CanReach(graph, start, target)
  {
    var search := new Search(graph, target);
    found := search.From(start);
    if !found {
      forall path
        ensures !IsPath(graph, path, start, target)
      {
        NoWayOut(graph, search.visited, path, start, target);
      }
    }
  }
}
