/** The event list of the emitted simulator: a 4-ary min-heap on the event time,
    kept in one growable slice and repaired in place by siftUp and siftDown. */
module EventQueues {

  /** Go's event holds a function value; the empty queue's answer holds none. */
  datatype Handler<+H> = NoHandler | Run(action: H)

  datatype Event<+H> = Event(time: real, handler: Handler<H>)

  /** What Pop answers on an empty queue. */
  function Sentinel<H>(): Event<H> {
    Event(-1.0, NoHandler)
  }

  /** The children of p are exactly 4p+1 .. 4p+4. */
  function Parent(i: nat): (p: nat)
    requires i > 0
    ensures 4 * p + 1 <= i <= 4 * p + 4
  {
    (i - 1) / 4
  }

  ghost predicate HeapOrder<H>(s: seq<Event<H>>) {
    forall i {:trigger Parent(i)} :: 0 < i < |s| ==> s[Parent(i)].time <= s[i].time
  }

  ghost predicate Sorted<H>(s: seq<Event<H>>) {
    forall i, j :: 0 <= i < j < |s| ==> s[i].time <= s[j].time
  }

  /** Heap order compares a node with its parent only; the root is still a minimum of all. */
  lemma {:induction false} RootIsMinimal<H>(s: seq<Event<H>>, i: nat)
    requires HeapOrder(s) && i < |s|
    ensures s[0].time <= s[i].time
  {
    if i > 0 {
      RootIsMinimal(s, Parent(i));
    }
  }

  function Swapped<T>(s: seq<T>, i: nat, j: nat): seq<T>
    requires i < |s| && j < |s|
  {
    s[i := s[j]][j := s[i]]
  }

  /** Heap order holds except that the entry at idx may be smaller than its parent. */
  ghost predicate OrderedButUp<H>(s: seq<Event<H>>, idx: nat) {
    && idx < |s|
    && (forall j {:trigger Parent(j)} :: 0 < j < |s| && j != idx ==> s[Parent(j)].time <= s[j].time)
    && (forall j {:trigger Parent(j)} ::
         0 < j < |s| && Parent(j) == idx && idx > 0 ==> s[Parent(idx)].time <= s[j].time)
  }

  /** Heap order holds except that the entry at idx may be larger than its children. */
  ghost predicate OrderedButDown<H>(s: seq<Event<H>>, idx: nat) {
    && idx < |s|
    && (forall j {:trigger Parent(j)} :: 0 < j < |s| && Parent(j) != idx ==> s[Parent(j)].time <= s[j].time)
    && (forall j {:trigger Parent(j)} ::
         0 < j < |s| && Parent(j) == idx && idx > 0 ==> s[Parent(idx)].time <= s[j].time)
  }

  lemma StepUp<H>(s: seq<Event<H>>, idx: nat)
    requires OrderedButUp(s, idx) && idx > 0 && s[idx].time < s[Parent(idx)].time
    ensures OrderedButUp(Swapped(s, idx, Parent(idx)), Parent(idx))
  {
    var t := Swapped(s, idx, Parent(idx));
    var p := Parent(idx);
    forall j | 0 < j < |t| && j != p
      ensures t[Parent(j)].time <= t[j].time
    {
      assert s[Parent(idx)].time <= s[j].time || Parent(j) != idx;
    }
  }

  lemma StepDown<H>(s: seq<Event<H>>, idx: nat, c: nat)
    requires OrderedButDown(s, idx) && 0 < c < |s| && Parent(c) == idx && s[c].time < s[idx].time
    requires forall j {:trigger Parent(j)} :: 0 < j < |s| && Parent(j) == idx ==> s[c].time <= s[j].time
    ensures OrderedButDown(Swapped(s, idx, c), c)
  {
    var t := Swapped(s, idx, c);
    forall j | 0 < j < |t| && Parent(j) != c
      ensures t[Parent(j)].time <= t[j].time
    {
      if j == idx {
        assert s[Parent(idx)].time <= s[c].time;
      }
    }
    forall j | 0 < j < |t| && Parent(j) == c
      ensures t[Parent(c)].time <= t[j].time
    {
      assert s[Parent(j)].time <= s[j].time;
    }
  }

  lemma SwapKeepsMultiset<T>(s: seq<T>, i: nat, j: nat)
    requires i < |s| && j < |s|
    ensures multiset(Swapped(s, i, j)) == multiset(s)
  {
  }

  lemma MoveLastToRoot<T>(s: seq<T>)
    requires s != []
    ensures multiset(s[0 := s[|s| - 1]][..|s| - 1]) == multiset(s) - multiset{s[0]}
  {
    var last := |s| - 1;
    var moved := s[0 := s[last]];
    assert moved == moved[..last] + [s[last]];
    assert multiset(moved) == multiset(moved[..last]) + multiset{s[last]};
    assert multiset(moved) == multiset(s) - multiset{s[0]} + multiset{s[last]};
    forall x
      ensures multiset(moved[..last])[x] == (multiset(s) - multiset{s[0]})[x]
    {
      assert multiset(moved)[x] == multiset(moved[..last])[x] + multiset{s[last]}[x];
    }
  }

  class EventQueue<H(==)> {
    var nodes: seq<Event<H>>

    ghost predicate Valid()
      reads this
    {
      HeapOrder(nodes)
    }

    constructor ()
      ensures Valid() && nodes == []
    {
      nodes := [];
    }

    function Len(): nat
      reads this
    {
      |nodes|
    }

    method Push(e: Event<H>)
      requires Valid()
      modifies this
      ensures Valid()
      ensures multiset(nodes) == multiset(old(nodes)) + multiset{e}
    {
      nodes := nodes + [e];
      SiftUp(|nodes| - 1);
    }

    method Pop() returns (e: Event<H>)
      requires Valid()
      modifies this
      ensures Valid()
      ensures old(nodes) == [] ==> e == Sentinel() && nodes == []
      ensures old(nodes) != [] ==>
                && e in old(nodes)
                && (forall x :: x in old(nodes) ==> e.time <= x.time)
                && multiset(nodes) == multiset(old(nodes)) - multiset{e}
                && |nodes| == |old(nodes)| - 1
    {
      if |nodes| == 0 {
        return Sentinel();
      }
      e := nodes[0];
      forall x | x in nodes
        ensures e.time <= x.time
      {
        var i :| 0 <= i < |nodes| && nodes[i] == x;
        RootIsMinimal(nodes, i);
      }
      var last := |nodes| - 1;
      MoveLastToRoot(nodes);
      nodes := nodes[0 := nodes[last]];
      nodes := nodes[..last];
      if |nodes| > 0 {
        SiftDown(0);
      }
    }

    /** Moves the entry at idx, the only one that may be smaller than its parent, towards the root. */
    method SiftUp(start: nat)
      requires OrderedButUp(nodes, start)
      modifies this
      ensures Valid() && multiset(nodes) == multiset(old(nodes)) && |nodes| == |old(nodes)|
    {
      var idx: nat := start;
      while idx > 0
        invariant OrderedButUp(nodes, idx) && |nodes| == |old(nodes)|
        invariant multiset(nodes) == multiset(old(nodes))
        decreases idx
      {
        var parent := (idx - 1) / 4;
        if nodes[idx].time >= nodes[parent].time {
          break;
        }
        StepUp(nodes, idx);
        SwapKeepsMultiset(nodes, idx, parent);
        nodes := Swapped(nodes, idx, parent);
        idx := parent;
      }
    }

    /** The comparison cascade of siftDown: the least of a node and its up to four children. */
    method SmallestOfFamily(idx: nat) returns (minIdx: nat)
      requires 4 * idx + 1 < |nodes|
      ensures minIdx < |nodes|
      ensures minIdx == idx || (0 < minIdx && Parent(minIdx) == idx && nodes[minIdx].time < nodes[idx].time)
      ensures forall j {:trigger Parent(j)} ::
              0 < j < |nodes| && Parent(j) == idx ==> nodes[minIdx].time <= nodes[j].time
    {
      var child1, child2, child3, child4 := 4 * idx + 1, 4 * idx + 2, 4 * idx + 3, 4 * idx + 4;
      minIdx := idx;
      if child1 < |nodes| {
        if nodes[child1].time < nodes[minIdx].time {
          minIdx := child1;
        }
        if child2 < |nodes| {
          if nodes[child2].time < nodes[minIdx].time {
            minIdx := child2;
          }
          if child3 < |nodes| {
            if nodes[child3].time < nodes[minIdx].time {
              minIdx := child3;
            }
            if child4 < |nodes| {
              if nodes[child4].time < nodes[minIdx].time {
                minIdx := child4;
              }
            }
          }
        }
      }
    }

    /** Moves the entry at idx, the only one that may be larger than a child, towards the leaves. */
    method SiftDown(start: nat)
      requires OrderedButDown(nodes, start)
      modifies this
      ensures Valid() && multiset(nodes) == multiset(old(nodes)) && |nodes| == |old(nodes)|
    {
      var idx: nat := start;
      while 4 * idx + 1 < |nodes|
        invariant OrderedButDown(nodes, idx) && |nodes| == |old(nodes)|
        invariant multiset(nodes) == multiset(old(nodes))
        decreases |nodes| - idx
      {
        var minIdx := SmallestOfFamily(idx);
        if minIdx == idx {
          break;
        }
        StepDown(nodes, idx, minIdx);
        SwapKeepsMultiset(nodes, idx, minIdx);
        nodes := Swapped(nodes, idx, minIdx);
        idx := minIdx;
      }
    }
  }

  /** Popping until empty yields the pushed events in time order, each exactly once. */
  method Drain<H(==)>(q: EventQueue<H>) returns (drained: seq<Event<H>>)
    requires q.Valid()
    modifies q
    ensures q.Valid() && q.nodes == []
    ensures multiset(drained) == multiset(old(q.nodes))
    ensures Sorted(drained)
  {
    drained := [];
    while q.Len() > 0
      invariant q.Valid()
      invariant multiset(drained) + multiset(q.nodes) == multiset(old(q.nodes))
      invariant Sorted(drained)
      invariant forall d, x :: d in drained && x in q.nodes ==> d.time <= x.time
      decreases q.Len()
    {
      ghost var before := q.nodes;
      var e := q.Pop();
      assert forall x :: x in q.nodes ==> x in before by {
        forall x | x in q.nodes
          ensures x in before
        {
          assert x in multiset(q.nodes);
          assert x in multiset(before);
        }
      }
      drained := drained + [e];
    }
  }
}
