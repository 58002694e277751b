/** A finite graph can be numbered so that every edge goes down exactly if it has no cycle. */
module Acyclic {
  import opened Lists

  type Edges = (nat, nat) -> bool

  ghost predicate IsWalk(edge: Edges, n: nat, walk: seq<nat>) {
    && walk != []
    && (forall i: nat :: i < |walk| ==> walk[i] < n)
    && forall i: nat :: i + 1 < |walk| ==> edge(walk[i], walk[i + 1])
  }

  ghost predicate HasCycle(edge: Edges, n: nat) {
    exists walk: seq<nat> :: IsWalk(edge, n, walk) && |walk| > 1 && walk[0] == walk[|walk| - 1]
  }

  /** Every edge leads from a higher to a lower number. */
  ghost predicate Descends(edge: Edges, n: nat, rank: seq<nat>) {
    |rank| == n && forall a: nat, b: nat {:trigger rank[a], rank[b]} ::
      a < n && b < n && edge(a, b) ==> rank[b] < rank[a]
  }

  lemma {:induction false} WalksGoDown(edge: Edges, n: nat, rank: seq<nat>, walk: seq<nat>, i: nat)
    requires Descends(edge, n, rank) && IsWalk(edge, n, walk) && i < |walk|
    ensures rank[walk[i]] + i <= rank[walk[0]]
    decreases i
  {
    if i > 0 {
      WalksGoDown(edge, n, rank, walk, i - 1);
      assert edge(walk[i - 1], walk[i - 1 + 1]);
    }
  }

  // ---------- numbering an acyclic graph ----------

  ghost predicate Numbers(edge: Edges, n: nat, order: seq<nat>) {
    && (forall i: nat :: i < |order| ==> order[i] < n)
    && (forall i: nat, j: nat :: i < j < |order| ==> order[i] != order[j])
    && forall i: nat, b: nat {:trigger order[i], edge(order[i], b)} ::
         i < |order| && b < n && edge(order[i], b) ==> b in order[..i]
  }

  ghost function UpTo(n: nat): (s: set<nat>)
    ensures |s| == n && forall x: nat :: x in s <==> x < n
  {
    if n == 0 then {} else UpTo(n - 1) + {n - 1}
  }

  ghost function Elements(xs: seq<nat>): (s: set<nat>)
    ensures forall x :: x in s <==> x in xs
  {
    if xs == [] then {} else assert xs == xs[..|xs| - 1] + [xs[|xs| - 1]]; Elements(xs[..|xs| - 1]) + {xs[|xs| - 1]}
  }

  lemma {:induction false} AsManyElements(xs: seq<nat>)
    requires forall i: nat, j: nat :: i < j < |xs| ==> xs[i] != xs[j]
    ensures |Elements(xs)| == |xs|
  {
    if xs != [] {
      var k := |xs| - 1;
      AsManyElements(xs[..k]);
      assert xs[k] !in xs[..k];
    }
  }

  /** Among more than n numbers below n two are the same. */
  lemma Pigeonhole(xs: seq<nat>, n: nat) returns (i: nat, j: nat)
    requires |xs| > n && forall k: nat :: k < |xs| ==> xs[k] < n
    ensures i < j < |xs| && xs[i] == xs[j]
  {
    if forall k: nat, l: nat :: k < l < |xs| ==> xs[k] != xs[l] {
      AsManyElements(xs);
      SubsetIsSmaller(Elements(xs), UpTo(n));
      assert false;
    }
    i, j :| i < j < |xs| && xs[i] == xs[j];
  }

  /** a has a successor outside done. */
  ghost predicate Leaves(edge: Edges, n: nat, done: seq<nat>, a: nat) {
    exists b: nat :: b < n && b !in done && edge(a, b)
  }

  lemma Extends(edge: Edges, n: nat, walk: seq<nat>, b: nat)
    requires IsWalk(edge, n, walk) && b < n && edge(walk[|walk| - 1], b)
    ensures IsWalk(edge, n, walk + [b])
  {
    var longer := walk + [b];
    forall i: nat | i + 1 < |longer|
      ensures edge(longer[i], longer[i + 1])
    {
      assert i + 1 < |walk| ==> edge(walk[i], walk[i + 1]);
    }
  }

  lemma Between(edge: Edges, n: nat, walk: seq<nat>, i: nat, j: nat)
    requires IsWalk(edge, n, walk) && i <= j < |walk|
    ensures IsWalk(edge, n, walk[i..j + 1])
  {
    var part := walk[i..j + 1];
    forall k: nat | k + 1 < |part|
      ensures edge(part[k], part[k + 1])
    {
      assert part[k] == walk[i + k] && part[k + 1] == walk[i + k + 1];
    }
  }

  /** Where every node outside done has a successor outside done, one can walk on for ever. */
  lemma {:induction false} WalksOutside(edge: Edges, n: nat, done: seq<nat>, start: nat, length: nat)
    returns (walk: seq<nat>)
    requires start < n && start !in done
    requires forall a: nat {:trigger Leaves(edge, n, done, a)} :: a < n && a !in done ==> Leaves(edge, n, done, a)
    ensures IsWalk(edge, n, walk) && |walk| == length + 1 && walk[length] !in done
    decreases length
  {
    if length == 0 {
      walk := [start];
    } else {
      var shorter := WalksOutside(edge, n, done, start, length - 1);
      var last := shorter[length - 1];
      assert last < n && Leaves(edge, n, done, last);
      var b: nat :| b < n && b !in done && edge(last, b);
      Extends(edge, n, shorter, b);
      walk := shorter + [b];
    }
  }

  lemma EndlessMeansCycle(edge: Edges, n: nat, done: seq<nat>, start: nat)
    requires start < n && start !in done
    requires forall a: nat {:trigger Leaves(edge, n, done, a)} :: a < n && a !in done ==> Leaves(edge, n, done, a)
    ensures HasCycle(edge, n)
  {
    var walk := WalksOutside(edge, n, done, start, n);
    var i, j := Pigeonhole(walk, n);
    Between(edge, n, walk, i, j);
    var loop := walk[i..j + 1];
    assert IsWalk(edge, n, loop) && |loop| > 1 && loop[0] == loop[|loop| - 1];
  }

  /** Without a cycle some node outside done has all its successors in done. */
  lemma LastOutside(edge: Edges, n: nat, done: seq<nat>, start: nat) returns (a: nat)
    requires !HasCycle(edge, n) && start < n && start !in done
    ensures a < n && a !in done && !Leaves(edge, n, done, a)
  {
    if forall c: nat {:trigger Leaves(edge, n, done, c)} :: c < n && c !in done ==> Leaves(edge, n, done, c) {
      EndlessMeansCycle(edge, n, done, start);
      assert false;
    }
    a :| a < n && a !in done && !Leaves(edge, n, done, a);
  }

  lemma {:induction false} Order(edge: Edges, n: nat, done: seq<nat>) returns (order: seq<nat>)
    requires !HasCycle(edge, n) && Numbers(edge, n, done)
    ensures Numbers(edge, n, order) && forall a: nat :: a < n ==> a in order
    decreases n - |done|
  {
    AsManyElements(done);
    SubsetIsSmaller(Elements(done), UpTo(n));
    if forall a: nat :: a < n ==> a in done {
      order := done;
    } else {
      var start: nat :| start < n && start !in done;
      assert start in UpTo(n) && start !in Elements(done);
      var a := LastOutside(edge, n, done, start);
      AddingNumbers(edge, n, done, a);
      order := Order(edge, n, done + [a]);
    }
  }

  lemma AddingNumbers(edge: Edges, n: nat, done: seq<nat>, a: nat)
    requires Numbers(edge, n, done) && a < n && a !in done
    requires !Leaves(edge, n, done, a)
    ensures Numbers(edge, n, done + [a])
  {
    var more := done + [a];
    forall i: nat, b: nat | i < |more| && b < n && edge(more[i], b)
      ensures b in more[..i]
    {
      assert more[..i] == done[..i];
      assert i < |done| ==> more[i] == done[i];
      assert done[..|done|] == done;
    }
  }

  /** A numbering along which every edge descends exists exactly if there is no cycle. */
  lemma RanksExactlyAcyclic(edge: Edges, n: nat)
    ensures (exists rank :: Descends(edge, n, rank)) <==> !HasCycle(edge, n)
  {
    if HasCycle(edge, n) {
      var walk: seq<nat> :| IsWalk(edge, n, walk) && |walk| > 1 && walk[0] == walk[|walk| - 1];
      forall rank | Descends(edge, n, rank)
        ensures false
      {
        WalksGoDown(edge, n, rank, walk, |walk| - 1);
      }
    } else {
      var order := Order(edge, n, []);
      var rank := seq(n, (a: nat) requires a < n => IndexOf(order, a));
      forall a: nat, b: nat | a < n && b < n && edge(a, b)
        ensures rank[b] < rank[a]
      {
        var i := IndexOf(order, a);
        assert order[i] == a;
        assert b in order[..i];
        var j: nat :| j < i && order[..i][j] == b;
        assert order[j] == b && order[IndexOf(order, b)] == b;
      }
      assert Descends(edge, n, rank);
    }
  }
}
