/** The control plane's view of its dispatcher nodes and the slots and memory it has promised away. */
module NodeRegistries {
  import opened Options
  import opened DispatcherRegistries
  import opened Protocol
  import opened Lexing

  /** What a node reports about itself. */
  datatype NodeStatus = NodeStatus(
    id: Node, address: string, goos: string, goarch: string,
    totalSlots: nat, usedSlots: nat, totalMemory: nat, reservedMemory: nat)

  datatype NodeRecord = NodeRecord(
    status: NodeStatus, lastSeen: int, reservedSlots: nat, reservedMemory: nat, failures: nat)

  function Larger(a: nat, b: nat): nat {
    if a > b then a else b
  }

  /** hasEnoughMemoryAt, with the sum in 64 bits. */
  predicate HasEnoughMemoryAt(node: NodeStatus, reserved: nat, limit: nat) {
    limit == 0 || node.totalMemory == 0 || Add64(reserved, limit) <= node.totalMemory
  }

  predicate Matches(node: NodeStatus, goos: string, goarch: string) {
    (goos == "" || node.goos == goos) && (goarch == "" || node.goarch == goarch)
  }

  /** The node can take one more experiment with the given memory limit. */
  predicate Fits(x: NodeRecord, goos: string, goarch: string, limit: nat) {
    && Matches(x.status, goos, goarch)
    && Larger(x.status.usedSlots, x.reservedSlots) < x.status.totalSlots
    && HasEnoughMemoryAt(x.status, Larger(x.status.reservedMemory, x.reservedMemory), limit)
  }

  function Reserved(x: NodeRecord, limit: nat): NodeRecord {
    x.(reservedSlots := x.reservedSlots + 1, reservedMemory := Add64(x.reservedMemory, limit))
  }

  function Released(x: NodeRecord, limit: nat): NodeRecord {
    x.(reservedSlots := Less(x.reservedSlots, 1), reservedMemory := Less(x.reservedMemory, limit))
  }

  // ---------- capacity ----------

  /** Memory sizes for which the sum of a reservation and a limit fits 64 bits. */
  const HALF := 0x8000_0000_0000_0000

  /** What a node with honest, fixed totals reports. */
  predicate Plausible(node: NodeStatus) {
    node.totalMemory <= HALF && (node.totalMemory > 0 ==> node.reservedMemory <= node.totalMemory)
  }

  predicate WithinCapacity(x: NodeRecord) {
    && Plausible(x.status)
    && x.reservedSlots <= x.status.totalSlots
    && (x.status.totalMemory > 0 ==> x.reservedMemory <= x.status.totalMemory)
  }

  /** Limits read from the database are clamped to 63 bits. */
  function U64ToI64(value: nat): int {
    if value > HALF - 1 then HALF - 1 else value
  }

  function I64ToU64(value: int): nat {
    if value < 0 then 0 else value
  }

  /** A limit that went through the database fits 63 bits, and is unchanged if it did before. */
  lemma ClampedLimits(value: nat)
    ensures I64ToU64(U64ToI64(value)) < HALF
    ensures I64ToU64(U64ToI64(value)) == value <==> value < HALF
  {
  }

  /** Within capacity the 64-bit test means what it says: no sum of a reservation and a limit wraps. */
  lemma MemoryTestIsExact(x: NodeRecord, limit: nat)
    requires WithinCapacity(x) && limit < HALF && x.status.totalMemory > 0
    ensures var reserved := Larger(x.status.reservedMemory, x.reservedMemory);
            && reserved + limit < U64
            && (HasEnoughMemoryAt(x.status, reserved, limit) <==>
                 limit == 0 || reserved + limit <= x.status.totalMemory)
  {
  }

  lemma ReservingKeepsCapacity(x: NodeRecord, goos: string, goarch: string, limit: nat)
    requires WithinCapacity(x) && limit < HALF && Fits(x, goos, goarch, limit)
    ensures WithinCapacity(Reserved(x, limit))
  {
    if x.status.totalMemory > 0 {
      MemoryTestIsExact(x, limit);
    }
  }

  /** What it takes to be picked, without the arithmetic of the test: the requested platform, where one
      is named; a slot that is neither used nor reserved; and, where both sides care about memory,
      room for the limit beside what the node reports and beside what it was promised. */
  predicate CanTake(x: NodeRecord, goos: string, goarch: string, limit: nat) {
    && (Trim(goos) == "" || Trim(goos) == x.status.goos) && (Trim(goarch) == "" || Trim(goarch) == x.status.goarch)
    && x.status.usedSlots < x.status.totalSlots && x.reservedSlots < x.status.totalSlots
    && (limit > 0 && x.status.totalMemory > 0 ==>
         && x.status.reservedMemory + limit <= x.status.totalMemory
         && x.reservedMemory + limit <= x.status.totalMemory)
  }

  lemma FitsExactly(x: NodeRecord, goos: string, goarch: string, limit: nat)
    requires WithinCapacity(x) && limit < HALF
    ensures Fits(x, Trim(goos), Trim(goarch), limit) <==> CanTake(x, goos, goarch, limit)
  {
    hide Trim;
    if x.status.totalMemory > 0 {
      MemoryTestIsExact(x, limit);
    }
  }

  /** On 64-bit values the test is wrong exactly if the sum wraps to something that fits. */
  lemma MemoryTestErrsOnlyOnWrap(node: NodeStatus, reserved: nat, limit: nat)
    requires reserved < U64 && limit < U64 && node.totalMemory < U64
    ensures (HasEnoughMemoryAt(node, reserved, limit) <==>
            limit == 0 || node.totalMemory == 0 || reserved + limit <= node.totalMemory)
            <==> (limit == 0 || node.totalMemory == 0 || reserved + limit < U64
              || reserved + limit - U64 > node.totalMemory)
  {
    if reserved + limit >= U64 {
      assert Add64(reserved, limit) == reserved + limit - U64;
    }
  }

  /** Without the bound on limits the test can wrap and accept what does not fit. */
  lemma WrappedTestAcceptsTooMuch()
    ensures exists x: NodeRecord, limit: nat ::
              WithinCapacity(x) && limit < U64 && Fits(x, "", "", limit) && x.status.totalMemory > 0
                && x.reservedMemory + limit > x.status.totalMemory
  {
    var x := NodeRecord(NodeStatus("n", "a", "linux", "amd64", 2, 0, 10, 0), 0, 1, 6, 0);
    var limit := U64 - 6;
    assert Fits(x, "", "", limit);
  }

  // ---------- the object ----------

  /** now is the time at which a method is called; a node not seen for longer than ttl is dead. */
  class NodeRegistry {
    const ttl: int
    var nodes: map<Node, NodeRecord>

    /** Every known node is stored under its id and has promised away no more than it has. */
    ghost predicate Valid()
      reads this
    {
      forall id {:trigger nodes[id]} :: id in nodes ==> nodes[id].status.id == id && WithinCapacity(nodes[id])
    }

    constructor (ttl: int)
      ensures Valid() && nodes == map[] && this.ttl == ttl
    {
      this.ttl := ttl;
      nodes := map[];
    }

    predicate Dead(x: NodeRecord, now: int) {
      now - x.lastSeen > ttl
    }

    /** A node (re)announces itself; what was promised before stays promised. */
    method Register(node: NodeStatus, now: int) returns (ok: bool)
      modifies this
      ensures ok == (node.id != "" && node.address != "" && node.goos != "" && node.goarch != "")
      ensures nodes == if ok then old(nodes)[node.id := Refreshed(old(nodes), node, now)] else old(nodes)
      ensures ok ==>
                && nodes[node.id].status == node && nodes[node.id].lastSeen == now
                && Carried(old(nodes), node.id, nodes[node.id])
      ensures old(Valid()) && Plausible(node) && KeepsTotals(old(nodes), node) ==> Valid()
    {
      if node.id == "" || node.address == "" || node.goos == "" || node.goarch == "" {
        return false;
      }
      nodes := nodes[node.id := Refreshed(nodes, node, now)];
      ok := true;
    }

    method Heartbeat(node: NodeStatus, now: int) returns (ok: bool)
      modifies this
      ensures ok == (node.id != "")
      ensures nodes == if ok then old(nodes)[node.id := Refreshed(old(nodes), node, now)] else old(nodes)
      ensures ok ==>
                && nodes[node.id].status == node && nodes[node.id].lastSeen == now
                && Carried(old(nodes), node.id, nodes[node.id])
      ensures old(Valid()) && Plausible(node) && KeepsTotals(old(nodes), node) ==> Valid()
    {
      if node.id == "" {
        return false;
      }
      nodes := nodes[node.id := Refreshed(nodes, node, now)];
      ok := true;
    }

    /** Looks at the nodes in some order, forgets dead ones on the way and reserves on the first that fits. */
    method PickAndReserve(goos: string, goarch: string, limit: nat, now: int)
      returns (picked: Option<NodeStatus>, ghost chosen: Node)
      modifies this
      ensures picked.Some? ==>
                && chosen in old(nodes) && old(nodes)[chosen].status == picked.value
                && !Dead(old(nodes)[chosen], now) && Fits(old(nodes)[chosen], Trim(goos), Trim(goarch), limit)
                && chosen in nodes && nodes[chosen] == Reserved(old(nodes)[chosen], limit)
                && forall id {:trigger nodes[id]} ::
                     id in nodes && id != chosen ==> id in old(nodes) && nodes[id] == old(nodes)[id]
      ensures picked.None? ==> forall id ::
              id in old(nodes) && !Dead(old(nodes)[id], now) ==> !Fits(old(nodes)[id], Trim(goos), Trim(goarch), limit)
      ensures picked.None? ==> nodes == map id | id in old(nodes) && !Dead(old(nodes)[id], now) :: old(nodes)[id]
      ensures forall id :: id in old(nodes) && id !in nodes ==> Dead(old(nodes)[id], now)
      ensures old(Valid()) && limit < HALF ==> Valid()
    {
      var os, arch := Trim(goos), Trim(goarch);
      var was := nodes;
      var ids := nodes.Keys;
      while ids != {}
        invariant ids <= was.Keys && nodes.Keys <= was.Keys
        invariant forall id {:trigger nodes[id]} :: id in nodes ==> nodes[id] == was[id]
        invariant forall id {:trigger was[id]} :: id in was && id !in nodes ==> Dead(was[id], now) && id !in ids
        invariant forall id {:trigger was[id]} :: id in was && id !in ids ==>
                    if Dead(was[id], now) then id !in nodes else !Fits(was[id], os, arch, limit)
        decreases |ids|
      {
        var id :| id in ids;
        ids := ids - {id};
        var record := was[id];
        if Dead(record, now) {
          nodes := nodes - {id};
        } else if Fits(record, os, arch, limit) {
          if WithinCapacity(record) && limit < HALF {
            ReservingKeepsCapacity(record, os, arch, limit);
          }
          nodes := nodes[id := Reserved(record, limit)];
          return Some(record.status), id;
        }
      }
      picked, chosen := None, "";
    }

    /** List: the live nodes; dead ones are forgotten. */
    method List(now: int) returns (alive: set<NodeStatus>)
      modifies this
      ensures nodes == map id | id in old(nodes) && !Dead(old(nodes)[id], now) :: old(nodes)[id]
      ensures alive == set id | id in nodes :: nodes[id].status
      ensures old(Valid()) ==> Valid()
    {
      var was := nodes;
      var ids := nodes.Keys;
      while ids != {}
        invariant ids <= was.Keys
        invariant nodes == map id | id in was && (id in ids || !Dead(was[id], now)) :: was[id]
        decreases |ids|
      {
        var id :| id in ids;
        ids := ids - {id};
        if Dead(was[id], now) {
          nodes := nodes - {id};
        }
      }
      alive := set id | id in nodes :: nodes[id].status;
    }

    /** A release never takes more than is reserved. */
    method ReleaseReservation(id: Node, limit: nat)
      modifies this
      ensures nodes == if id in old(nodes) then old(nodes)[id := Released(old(nodes)[id], limit)] else old(nodes)
      ensures id in old(nodes) ==>
                var x, y := old(nodes)[id], nodes[id];
                && y.reservedSlots == (if x.reservedSlots == 0 then 0 else x.reservedSlots - 1)
                && y.reservedMemory == (if x.reservedMemory < limit then 0 else x.reservedMemory - limit)
                && y == x.(reservedSlots := y.reservedSlots, reservedMemory := y.reservedMemory)
      ensures old(Valid()) ==> Valid()
    {
      if id in nodes {
        nodes := nodes[id := Released(nodes[id], limit)];
      }
    }

    method MarkNodeFailed(id: Node, maxFailures: nat) returns (removed: bool)
      modifies this
      ensures removed == (id in old(nodes) && old(nodes)[id].failures + 1 >= maxFailures)
      ensures nodes == if removed then old(nodes) - {id}
                       else if id in old(nodes)
                         then old(nodes)[id := old(nodes)[id].(failures := old(nodes)[id].failures + 1)]
                       else old(nodes)
      ensures old(Valid()) ==> Valid()
    {
      if id !in nodes {
        return false;
      }
      nodes := nodes[id := nodes[id].(failures := nodes[id].failures + 1)];
      removed := nodes[id].failures >= maxFailures;
      if removed {
        nodes := nodes - {id};
        assert nodes == old(nodes) - {id};
      }
    }

    method MarkNodeSucceeded(id: Node)
      modifies this
      ensures nodes == if id in old(nodes) then old(nodes)[id := old(nodes)[id].(failures := 0)] else old(nodes)
      ensures old(Valid()) ==> Valid()
    {
      if id in nodes {
        if nodes[id].failures == 0 {
          return;
        }
        nodes := nodes[id := nodes[id].(failures := 0)];
      }
    }
  }

  /** The record after a registration or heartbeat: promises and failures are carried over. */
  function Refreshed(nodes: map<Node, NodeRecord>, node: NodeStatus, now: int): NodeRecord {
    if node.id in nodes then nodes[node.id].(status := node, lastSeen := now) else NodeRecord(node, now, 0, 0, 0)
  }

  /** What was promised on the node before, and its failures, stay; a new node starts with none. */
  predicate Carried(was: map<Node, NodeRecord>, id: Node, x: NodeRecord) {
    if id in was
      then x.reservedSlots == was[id].reservedSlots && x.reservedMemory == was[id].reservedMemory
           && x.failures == was[id].failures
    else x.reservedSlots == 0 && x.reservedMemory == 0 && x.failures == 0
  }

  /** The node reports the totals that it reported before. */
  predicate KeepsTotals(nodes: map<Node, NodeRecord>, node: NodeStatus) {
    node.id in nodes ==>
      node.totalSlots == nodes[node.id].status.totalSlots && node.totalMemory == nodes[node.id].status.totalMemory
  }
}
