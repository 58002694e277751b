/** The scheduler of the control plane: one tick takes the queued records, reserves a node for each,
    marks the row, sends the start request and settles the outcome. */
module Schedulers {
  import opened Options
  import R = DispatcherRegistries
  import opened Protocol
  import opened Lexing
  import opened Repositories
  import opened NodeRegistries
  import opened PendingQueues

  /** What the outside world answers while a record is worked on: the two row updates and the
      dispatcher, whose answer may be missing. */
  datatype World = World(mark: DbAnswer, response: Option<Response>, settle: DbAnswer)

  /** How the work on a record ended. */
  datatype Verdict = NoNode | MarkFailed | NotPending | Went(outcome: StartOutcome)

  /** The reservation stays with the node for as long as the experiment may be running there. */
  predicate KeepsReservation(v: Verdict) {
    v.Went? && (v.outcome.OutcomeAccepted? || v.outcome.OutcomeAlreadyRunning? || v.outcome.Ambiguous?)
  }

  /** The record goes back to the queue. */
  predicate Requeues(v: Verdict, w: World) {
    v.NoNode? || v.MarkFailed? || (v == Went(Retryable) && w.settle.Done?)
  }

  /** The row after the work on its record. */
  function SettledRow(row: Row, n: Node, v: Verdict, w: World): Row {
    match v
    case NoNode => row
    case NotPending => row
    case MarkFailed => if Applied(w.mark) && row.status.Pending? then StartingRow(row, n) else row
    case Went(outcome) =>
      var started := StartingRow(row, n);
      if !Applied(w.settle) then started
      else
        match outcome
        case Retryable => PendingRow(started)
        case Fatal => FailedToStartRow(started, n)
        case _ => started
  }

  /** How the work ends on a record for which a node was picked. */
  function VerdictOf(rows: map<Key, Row>, k: Key, w: World): Verdict {
    if !w.mark.Done? then MarkFailed
    else if k !in rows || !rows[k].status.Pending? then NotPending
    else Went(if w.response.None? then Ambiguous else OutcomeOf(w.response.value))
  }

  /** The dispatcher refused for now, and the row went back to PENDING by an update that reported an error. */
  predicate Forgets(v: Verdict, w: World) {
    v == Went(Retryable) && w.settle.FailedAfter?
  }

  lemma VerdictLooksAtItsRow(rows: map<Key, Row>, rows': map<Key, Row>, k: Key, w: World)
    requires rows.Keys == rows'.Keys && (k in rows ==> rows[k] == rows'[k])
    ensures VerdictOf(rows, k, w) == VerdictOf(rows', k, w)
  {
  }

  /** PENDING and not to be queued again is the row exactly in that case. */
  lemma ForgottenExactly(rows: map<Key, Row>, k: Key, n: Node, w: World)
    ensures var v := VerdictOf(rows, k, w);
            k in rows ==> (SettledRow(rows[k], n, v, w).status.Pending? && !Requeues(v, w) <==> Forgets(v, w))
    ensures Forgets(VerdictOf(rows, k, w), w) <==>
              && k in rows && rows[k].status.Pending? && w.mark.Done?
              && w.response in {Some(Rejected(NoFreeSlots)), Some(Rejected(NotEnoughMemory)),
                   Some(Rejected(RequestCanceled))}
              && w.settle.FailedAfter?
  {
  }

  /** The nodes after the work on a record that went to node n. */
  function SettledNodes(known: map<Node, NodeRecord>, n: Node, limit: nat, v: Verdict, maxFailures: nat)
    : map<Node, NodeRecord>
  {
    if n !in known then known
    else
      var x := if KeepsReservation(v) then known[n] else Released(known[n], limit);
      if !v.Went? then known[n := x]
      else if !v.outcome.Ambiguous? then known[n := x.(failures := 0)]
      else if x.failures + 1 >= maxFailures then known - {n}
      else known[n := x.(failures := x.failures + 1)]
  }

  // ---------- the steps of the protocol ----------

  /** A failed mark is one step, and a mark that finds no PENDING row none. */
  lemma MarkIsAStep(s: State, k: Key, n: Node, w: World, names: Key -> string)
    requires s.phase.Idle? && k in s.db
    ensures var v, step := VerdictOf(s.db, k, w), MarkStartingFails(k, n, Applied(w.mark) && s.db[k].status.Pending?);
            && (v.MarkFailed? ==>
                   Enabled(s, step, names)
                   && Apply(s, step, names) == s.(db := s.db[k := SettledRow(s.db[k], n, v, w)]))
            && (v.NotPending? ==> SettledRow(s.db[k], n, v, w) == s.db[k])
  {
  }

  /** The state in which the request is under way. */
  ghost function Sending(s: State, k: Key, n: Node): State
    requires k in s.db
  {
    s.(db := s.db[k := StartingRow(s.db[k], n)], calls := s.calls + [Call(k, n, Sent)], phase := Waiting(k, |s.calls|))
  }

  /** Otherwise the row is marked, the request sent, its answer received or given up, and the row settled.
      Between t0 and t the rest of the system may have taken any steps that leave the row alone. */
  lemma StartIsSteps(s: State, k: Key, n: Node, w: World, t: State, names: Key -> string)
    requires s.phase.Idle? && k in s.db && VerdictOf(s.db, k, w).Went?
    requires t.phase == Waiting(k, |s.calls|) && k in t.db && t.db[k] == StartingRow(s.db[k], n)
    requires |s.calls| < |t.calls| && t.calls[|s.calls|].node == n
    requires w.response.Some? ==> t.calls[|s.calls|].phase == Answered(w.response.value)
    ensures var s1, marked := MarkStarting(k, n), s.(db := s.db[k := StartingRow(s.db[k], n)], phase := Marked(k, n));
            && Enabled(s, s1, names) && Apply(s, s1, names) == marked
            && Enabled(marked, SendStart, names) && Apply(marked, SendStart, names) == Sending(s, k, n)
    ensures var answer, settle := if w.response.Some? then Receive else GiveUp, Settle(Applied(w.settle));
            && Enabled(t, answer, names) && Enabled(Apply(t, answer, names), settle, names)
            && var u := Apply(Apply(t, answer, names), settle, names);
               u.phase.Idle? && u.db == t.db[k := SettledRow(s.db[k], n, VerdictOf(s.db, k, w), w)]
  {
    assert t.db[k := t.db[k]] == t.db;
  }

  // ---------- what becomes of the row ----------

  /** The row of a record that went to node n. It is STARTING there once the mark took effect, and stays
      so unless the dispatcher refused: for now, then it is PENDING again and on no node, or for good,
      then it has FAILED, provided that the update took effect. */
  predicate RowMoved(x: Row, y: Row, n: Node, w: World) {
    && y.result == x.result
    && if !x.status.Pending? || w.mark.FailedBefore? then y == x
       else if w.mark.FailedAfter? || w.response in {None, Some(Accepted), Some(Rejected(AlreadyRunning))}
            || w.settle.FailedBefore? then y.status == Starting && y.node == Some(n)
       else if w.response == Some(Rejected(BadRequest)) then y.status == Failed && y.node == Some(n)
       else y.status == Pending && y.node == None
  }

  lemma SettlingMoves(rows: map<Key, Row>, k: Key, n: Node, w: World)
    requires k in rows
    ensures RowMoved(rows[k], SettledRow(rows[k], n, VerdictOf(rows, k, w), w), n, w)
  {
  }

  // ---------- reservations ----------

  /** The start request went out. */
  predicate Asked(rows: map<Key, Row>, k: Key, w: World) {
    w.mark.Done? && k in rows && rows[k].status.Pending?
  }

  /** The dispatcher took the experiment, runs it already, or gave no answer. */
  predicate MayRun(rows: map<Key, Row>, k: Key, w: World) {
    Asked(rows, k, w) && (w.response.Some? ==> w.response.value in {Accepted, Rejected(AlreadyRunning)})
  }

  /** The table of nodes after node n was picked for a record and the record was worked on: n holds one
      slot and the limit more than before if the experiment may run there, and else what it held. It
      is removed for its failures only when it gave no answer; the other nodes are as they were. */
  ghost predicate Charges(was: map<Node, NodeRecord>, nodes: map<Node, NodeRecord>, n: Node, limit: nat,
                          rows: map<Key, Row>, k: Key, w: World, maxFailures: nat) {
    && n in was
    && (n !in nodes <==> Asked(rows, k, w) && w.response.None? && was[n].failures + 1 >= maxFailures)
    && (n in nodes ==>
         var x, y, taken := was[n], nodes[n], MayRun(rows, k, w);
         && y.status == x.status && y.lastSeen == x.lastSeen
         && y.reservedSlots == x.reservedSlots + (if taken then 1 else 0)
         && (x.reservedMemory + limit < R.U64 ==> y.reservedMemory == x.reservedMemory + if taken then limit else 0)
         && y.failures == if !Asked(rows, k, w) then x.failures else if w.response.None? then x.failures + 1 else 0)
    && OthersStay(was, nodes, n)
  }

  ghost predicate OthersStay(was: map<Node, NodeRecord>, nodes: map<Node, NodeRecord>, n: Node) {
    forall id {:trigger nodes[id]} :: id in nodes && id != n ==> id in was && nodes[id] == was[id]
  }

  lemma SettlingCharges(was: map<Node, NodeRecord>, picked: map<Node, NodeRecord>, n: Node, limit: nat,
                        rows: map<Key, Row>, k: Key, w: World, maxFailures: nat)
    requires n in was && n in picked && picked[n] == Reserved(was[n], limit) && OthersStay(was, picked, n)
    ensures var v := VerdictOf(rows, k, w);
            Charges(was, SettledNodes(picked, n, limit, v, maxFailures), n, limit, rows, k, w, maxFailures)
  {
  }

  /** The records of the batch that went to node id and may run there. */
  function RunningOn(id: Node, batch: seq<Record>, picks: seq<Option<Node>>, rows: map<Key, Row>, world: Key -> World)
    : seq<Record>
    requires |picks| <= |batch|
    decreases |picks|
  {
    if picks == [] then []
    else
      var n := |picks| - 1;
      RunningOn(id, batch, picks[..n], rows, world) +
      if picks[n] == Some(id) && MayRun(rows, batch[n].key, world(batch[n].key)) then [batch[n]] else []
  }

  function LimitsOf(records: seq<Record>): nat {
    if records == [] then 0
    else LimitsOf(records[..|records| - 1]) + records[|records| - 1].memoryLimit
  }

  /** Reserved memory is counted exactly: the node bounds it, or the whole batch cannot make it wrap. */
  predicate Countable(x: NodeRecord, batch: seq<Record>) {
    x.status.totalMemory > 0 || x.reservedMemory + LimitsOf(batch) < R.U64
  }

  /** The nodes still known are as they were. */
  ghost predicate Remain(was: map<Node, NodeRecord>, nodes: map<Node, NodeRecord>) {
    forall id {:trigger nodes[id]} :: id in nodes ==> id in was && nodes[id] == was[id]
  }

  lemma ChargesLooksAtItsRow(was: map<Node, NodeRecord>, nodes: map<Node, NodeRecord>, n: Node, limit: nat,
                             rows: map<Key, Row>, rows': map<Key, Row>, k: Key, w: World, maxFailures: nat)
    requires Charges(was, nodes, n, limit, rows, k, w, maxFailures)
    requires (k in rows <==> k in rows') && (k in rows ==> rows[k] == rows'[k])
    ensures Charges(was, nodes, n, limit, rows', k, w, maxFailures)
  {
  }

  /** Every node still known has gained exactly the slots and limits of the records that may run on it. */
  ghost predicate Gained(was: map<Node, NodeRecord>, nodes: map<Node, NodeRecord>, batch: seq<Record>,
                         picks: seq<Option<Node>>, rows: map<Key, Row>, world: Key -> World)
    requires |picks| <= |batch|
  {
    forall id {:trigger nodes[id]} :: id in nodes ==>
      var running := RunningOn(id, batch, picks, rows, world);
      && id in was && nodes[id].status == was[id].status && nodes[id].lastSeen == was[id].lastSeen
      && nodes[id].reservedSlots == was[id].reservedSlots + |running|
      && (Countable(was[id], batch) ==> nodes[id].reservedMemory == was[id].reservedMemory + LimitsOf(running))
  }

  lemma {:induction false} RunningIsPart(id: Node, batch: seq<Record>, picks: seq<Option<Node>>, rows: map<Key, Row>,
                                         world: Key -> World)
    requires |picks| <= |batch|
    ensures LimitsOf(RunningOn(id, batch, picks, rows, world)) <= LimitsOf(batch[..|picks|])
    decreases |picks|
  {
    if picks != [] {
      var n := |picks| - 1;
      RunningIsPart(id, batch, picks[..n], rows, world);
      LimitsSnoc(batch[..n], batch[n]);
      assert batch[..n + 1] == batch[..n] + [batch[n]];
      LimitsSnoc(RunningOn(id, batch, picks[..n], rows, world), batch[n]);
    }
  }

  lemma LimitsSnoc(records: seq<Record>, r: Record)
    ensures LimitsOf(records + [r]) == LimitsOf(records) + r.memoryLimit
    ensures records + [] == records
  {
    assert (records + [r])[..|records|] == records;
  }

  lemma {:induction false} LimitsOfPrefix(batch: seq<Record>, n: nat)
    requires n < |batch|
    ensures LimitsOf(batch[..n]) + batch[n].memoryLimit <= LimitsOf(batch)
    decreases |batch|
  {
    var last := |batch| - 1;
    if n < last {
      LimitsOfPrefix(batch[..last], n);
      assert batch[..last][..n] == batch[..n];
    }
  }

  lemma RunningOnNext(id: Node, batch: seq<Record>, picks: seq<Option<Node>>, pick: Option<Node>, rows: map<Key, Row>,
                      world: Key -> World)
    requires |picks| < |batch|
    ensures var record, before := batch[|picks|], RunningOn(id, batch, picks, rows, world);
            RunningOn(id, batch, picks + [pick], rows, world) ==
              if pick == Some(id) && MayRun(rows, record.key, world(record.key)) then before + [record] else before
  {
    assert (picks + [pick])[..|picks|] == picks;
    assert RunningOn(id, batch, picks, rows, world) + [] == RunningOn(id, batch, picks, rows, world);
  }

  lemma NothingGained(was: map<Node, NodeRecord>, batch: seq<Record>, rows: map<Key, Row>, world: Key -> World)
    ensures Gained(was, was, batch, [], rows, world)
  {
  }

  lemma NobodyGains(was: map<Node, NodeRecord>, nodes: map<Node, NodeRecord>, nodes': map<Node, NodeRecord>,
                    batch: seq<Record>, picks: seq<Option<Node>>, rows: map<Key, Row>, world: Key -> World)
    requires |picks| < |batch| && Gained(was, nodes, batch, picks, rows, world)
    requires Remain(nodes, nodes')
    ensures Gained(was, nodes', batch, picks + [None], rows, world)
  {
    hide RunningOn, LimitsOf, MayRun;
    forall id | id in nodes'
      ensures RunningOn(id, batch, picks + [None], rows, world) == RunningOn(id, batch, picks, rows, world)
    {
      RunningOnNext(id, batch, picks, None, rows, world);
    }
  }

  /** The limit of the next record can be added to what node n holds without wrapping. */
  lemma NextFits(was: map<Node, NodeRecord>, nodes: map<Node, NodeRecord>, n: Node, batch: seq<Record>,
                 picks: seq<Option<Node>>, rows: map<Key, Row>, world: Key -> World)
    requires |picks| < |batch| && Gained(was, nodes, batch, picks, rows, world) && n in nodes
    requires WithinCapacity(nodes[n]) && batch[|picks|].memoryLimit < HALF && Countable(was[n], batch)
    ensures nodes[n].reservedMemory + batch[|picks|].memoryLimit < R.U64
  {
    hide RunningOn, LimitsOf;
    RunningIsPart(n, batch, picks, rows, world);
    LimitsOfPrefix(batch, |picks|);
  }

  lemma OneGains(was: map<Node, NodeRecord>, nodes: map<Node, NodeRecord>, nodes': map<Node, NodeRecord>, n: Node,
                 batch: seq<Record>, picks: seq<Option<Node>>, rows: map<Key, Row>, world: Key -> World,
                 maxFailures: nat)
    requires |picks| < |batch| && Gained(was, nodes, batch, picks, rows, world)
    requires n in nodes && WithinCapacity(nodes[n]) && batch[|picks|].memoryLimit < HALF
    requires var r := batch[|picks|]; Charges(nodes, nodes', n, r.memoryLimit, rows, r.key, world(r.key), maxFailures)
    ensures Gained(was, nodes', batch, picks + [Some(n)], rows, world)
  {
    var r := batch[|picks|];
    forall id | id in nodes'
      ensures var running := RunningOn(id, batch, picks + [Some(n)], rows, world);
              && id in was && nodes'[id].status == was[id].status && nodes'[id].lastSeen == was[id].lastSeen
              && nodes'[id].reservedSlots == was[id].reservedSlots + |running|
              && (Countable(was[id], batch) ==>
                   nodes'[id].reservedMemory == was[id].reservedMemory + LimitsOf(running))
    {
      hide RunningOn, LimitsOf, MayRun;
      RunningOnNext(id, batch, picks, Some(n), rows, world);
      if id == n && Countable(was[n], batch) {
        NextFits(was, nodes, n, batch, picks, rows, world);
        LimitsSnoc(RunningOn(n, batch, picks, rows, world), r);
      }
    }
  }

  // ---------- a batch ----------

  /** A row is PENDING and its experiment not queued. */
  predicate Left(rows: map<Key, Row>, index: set<Key>, k: Key) {
    k in rows && rows[k].status.Pending? && k !in index
  }

  /** The first records of the batch are worked on, one for each verdict, and the others are as before. */
  ghost predicate WorkedOn(was: map<Key, Row>, rows: map<Key, Row>, index: set<Key>, batch: seq<Record>,
                           verdicts: seq<Verdict>, world: Key -> World) {
    && |verdicts| <= |batch| && rows.Keys == was.Keys
    && (forall k :: k in was && (forall j :: 0 <= j < |verdicts| ==> batch[j].key != k) ==> rows[k] == was[k])
    && (forall j :: |verdicts| <= j < |batch| ==> batch[j].key !in index)
    && (forall j ::
         0 <= j < |verdicts| && !verdicts[j].NoNode? ==>
         verdicts[j] == VerdictOf(was, batch[j].key, world(batch[j].key)))
    && forall j :: 0 <= j < |verdicts| && batch[j].key in was ==>
         (Left(rows, index, batch[j].key) <==> Forgets(verdicts[j], world(batch[j].key)))
  }

  lemma StartsUnworked(was: map<Key, Row>, index: set<Key>, batch: seq<Record>, world: Key -> World)
    requires forall j :: 0 <= j < |batch| ==> batch[j].key !in index
    ensures WorkedOn(was, was, index, batch, [], world)
  {
  }

  lemma WorkIsAhead(was: map<Key, Row>, rows: map<Key, Row>, index: set<Key>, batch: seq<Record>,
                    verdicts: seq<Verdict>, world: Key -> World)
    requires WorkedOn(was, rows, index, batch, verdicts, world) && |verdicts| < |batch|
    ensures batch[|verdicts|].key !in index
  {
  }

  lemma WorksOnNext(was: map<Key, Row>, rows: map<Key, Row>, index: set<Key>, rows': map<Key, Row>, index': set<Key>,
                    batch: seq<Record>, verdicts: seq<Verdict>, v: Verdict, world: Key -> World)
    requires WorkedOn(was, rows, index, batch, verdicts, world) && |verdicts| < |batch| && NoDuplicates(batch)
    requires var k := batch[|verdicts|].key;
             && rows'.Keys == rows.Keys && (forall l :: l in rows && l != k ==> rows'[l] == rows[l])
             && index <= index' <= index + {k}
             && (!v.NoNode? ==> v == VerdictOf(rows, k, world(k)))
             && (k in rows ==> (Left(rows', index', k) <==> Forgets(v, world(k))))
    ensures WorkedOn(was, rows', index', batch, verdicts + [v], world)
    ensures var k := batch[|verdicts|].key; (k in rows <==> k in was) && (k in rows ==> rows[k] == was[k])
  {
    hide Forgets;
    var k := batch[|verdicts|].key;
    assert k in was ==> rows[k] == was[k];
    VerdictLooksAtItsRow(was, rows, k, world(k));
    hide VerdictOf;
    var more := verdicts + [v];
    forall j | 0 <= j < |more| && batch[j].key in was
      ensures Left(rows', index', batch[j].key) <==> Forgets(more[j], world(batch[j].key))
    {
      if j < |verdicts| {
        assert batch[j].key != k && more[j] == verdicts[j];
        assert Left(rows, index, batch[j].key) == Left(rows', index', batch[j].key);
      }
    }
  }

  lemma AllWorkedOn(was: map<Key, Row>, rows: map<Key, Row>, index: set<Key>, batch: seq<Record>,
                    verdicts: seq<Verdict>, world: Key -> World)
    requires WorkedOn(was, rows, index, batch, verdicts, world) && |verdicts| == |batch|
    ensures rows.Keys == was.Keys
    ensures forall k :: k in was && (forall j :: 0 <= j < |batch| ==> batch[j].key != k) ==> rows[k] == was[k]
    ensures forall j ::
            0 <= j < |batch| && !verdicts[j].NoNode? ==>
            verdicts[j] == VerdictOf(was, batch[j].key, world(batch[j].key))
    ensures forall j :: 0 <= j < |batch| && batch[j].key in was ==>
              (Left(rows, index, batch[j].key) <==> Forgets(verdicts[j], world(batch[j].key)))
  {
  }

  /** The records that are queued again, in their order. */
  function RequeuedOf(batch: seq<Record>, verdicts: seq<Verdict>, world: Key -> World): seq<Record>
    requires |verdicts| <= |batch|
    decreases |verdicts|
  {
    if verdicts == [] then []
    else
      var n := |verdicts| - 1;
      RequeuedOf(batch, verdicts[..n], world) + if Requeues(verdicts[n], world(batch[n].key)) then [batch[n]] else []
  }

  lemma RequeuedNext(items: seq<Record>, batch: seq<Record>, verdicts: seq<Verdict>, v: Verdict, world: Key -> World)
    requires |verdicts| < |batch|
    ensures var r := batch[|verdicts|];
            items + RequeuedOf(batch, verdicts + [v], world) ==
              items + RequeuedOf(batch, verdicts, world) + if Requeues(v, world(r.key)) then [r] else []
  {
    hide Requeues;
    assert (verdicts + [v])[..|verdicts|] == verdicts;
  }

  lemma NoneRequeued(items: seq<Record>, batch: seq<Record>, world: Key -> World)
    ensures items + RequeuedOf(batch, [], world) == items
  {
  }

  class Scheduler {
    const repo: Repository
    const nodes: NodeRegistry
    const queue: PendingQueue
    const maxFailures: nat

    ghost predicate Valid()
      reads this, nodes, queue, queue.arr
    {
      nodes.Valid() && queue.Valid()
    }

    constructor (ttl: int, maxFailures: nat)
      ensures Valid() && fresh(repo) && fresh(nodes) && fresh(queue) && fresh(queue.arr)
      ensures repo.rows == map[] && nodes.nodes == map[] && nodes.ttl == ttl && queue.items == [] && queue.index == {}
    {
      repo := new Repository();
      nodes := new NodeRegistry(ttl);
      queue := new PendingQueue();
      this.maxFailures := maxFailures;
    }

    /** Marks the row and asks the dispatcher; the node has been reserved already. */
    method StartOnNode(record: Record, n: Node, w: World) returns (v: Verdict)
      modifies repo
      ensures v == VerdictOf(old(repo.rows), record.key, w)
      ensures repo.rows == if record.key in old(repo.rows)
              then old(repo.rows)[record.key := SettledRow(old(repo.rows)[record.key], n, v, w)] else old(repo.rows)
    {
      var acquired, failed := repo.TryMarkExperimentStarting(record.key, n, w.mark);
      if failed {
        return MarkFailed;
      }
      if !acquired {
        return NotPending;
      }
      var outcome := if w.response.None? then Ambiguous else OutcomeOf(w.response.value);
      v := Went(outcome);
      if outcome.Retryable? {
        var _ := repo.MarkExperimentPending(record.key, w.settle);
      } else if outcome.Fatal? {
        var _ := repo.MarkExperimentFailedToStart(record.key, n, w.settle);
      }
    }

    /** Returns or keeps the reservation and counts successes and failures of the node. */
    method SettleNode(n: Node, limit: nat, v: Verdict)
      requires nodes.Valid()
      modifies nodes
      ensures nodes.Valid()
      ensures nodes.nodes == SettledNodes(old(nodes.nodes), n, limit, v, maxFailures)
    {
      if !KeepsReservation(v) {
        nodes.ReleaseReservation(n, limit);
      }
      if v.Went? {
        if v.outcome.Ambiguous? {
          var _ := nodes.MarkNodeFailed(n, maxFailures);
        } else {
          nodes.MarkNodeSucceeded(n);
        }
      }
    }

    /** A live node that can take the record. */
    predicate Takes(x: NodeRecord, record: Record, now: int) {
      now - x.lastSeen <= nodes.ttl && CanTake(x, record.goos, record.goarch, record.memoryLimit)
    }

    /** No node can take the record. */
    ghost predicate NoneFits(known: map<Node, NodeRecord>, record: Record, now: int) {
      forall id {:trigger known[id]} :: id in known ==> !Takes(known[id], record, now)
    }

    /** The pick for a record: a node that can take it, or none if there is none. */
    ghost predicate Picks(known: map<Node, NodeRecord>, record: Record, pick: Option<Node>, now: int) {
      if pick.None? then NoneFits(known, record, now)
      else pick.value in known && Takes(known[pick.value], record, now)
    }

    method Pick(record: Record, now: int) returns (pick: Option<Node>)
      requires Valid() && record.memoryLimit < HALF
      modifies nodes
      ensures nodes.Valid() && Picks(old(nodes.nodes), record, pick, now)
      ensures pick.Some? ==> pick.value in nodes.nodes
                             && nodes.nodes[pick.value] == Reserved(old(nodes.nodes)[pick.value], record.memoryLimit)
      ensures OthersStay(old(nodes.nodes), nodes.nodes, if pick.Some? then pick.value else "")
      ensures pick.None? ==> Remain(old(nodes.nodes), nodes.nodes)
    {
      ghost var was := nodes.nodes;
      forall id | id in was
        ensures Takes(was[id], record, now) <==>
                !nodes.Dead(was[id], now)
                && NodeRegistries.Fits(was[id], Trim(record.goos), Trim(record.goarch), record.memoryLimit)
      {
        FitsExactly(was[id], record.goos, record.goarch, record.memoryLimit);
      }
      hide WithinCapacity, NodeRegistries.Fits, CanTake, Trim;
      var picked, chosen := nodes.PickAndReserve(record.goos, record.goarch, record.memoryLimit, now);
      pick := if picked.None? then None else Some(picked.value.id);
    }

    /** The work on one record of the batch. */
    method StartRecord(record: Record, w: World, now: int) returns (v: Verdict, pick: Option<Node>)
      requires Valid() && record.memoryLimit < HALF
      modifies repo, nodes, queue, queue.arr
      ensures (queue.arr == old(queue.arr) || fresh(queue.arr)) && Valid()
      ensures v.NoNode? <==> pick.None?
      ensures Picks(old(nodes.nodes), record, pick, now)
      ensures pick.None? ==> Remain(old(nodes.nodes), nodes.nodes)
      ensures pick.Some? ==> Charges(old(nodes.nodes), nodes.nodes, pick.value, record.memoryLimit, old(repo.rows),
                                     record.key, w, maxFailures)
      ensures pick.Some? ==> v == VerdictOf(old(repo.rows), record.key, w)
      ensures repo.rows == if pick.Some? && record.key in old(repo.rows)
              then old(repo.rows)[record.key := SettledRow(old(repo.rows)[record.key], pick.value, v, w)]
              else old(repo.rows)
      ensures pick.Some? && record.key in old(repo.rows) ==>
                RowMoved(old(repo.rows)[record.key], repo.rows[record.key], pick.value, w)
      ensures queue.index == old(queue.index) + if Requeues(v, w) then {record.key} else {}
      ensures queue.items == if Requeues(v, w) && record.key !in old(queue.index) then old(queue.items) + [record]
              else old(queue.items)
      ensures record.key in old(repo.rows) && record.key !in old(queue.index) ==>
                (repo.rows[record.key].status.Pending? && record.key !in queue.index <==> Forgets(v, w))
    {
      hide Indexed, NoDuplicates, WithinCapacity, SettledNodes, Charges, Picks, OthersStay, RowMoved;
      ghost var was := nodes.nodes;
      pick := Pick(record, now);
      if pick.None? {
        var _ := queue.Enqueue(record);
        return NoNode, pick;
      }
      PickedIsKnown(was, record, pick, now);
      v := StartOnNode(record, pick.value, w);
      SettlingCharges(was, nodes.nodes, pick.value, record.memoryLimit, old(repo.rows), record.key, w, maxFailures);
      SettleNode(pick.value, record.memoryLimit, v);
      if Requeues(v, w) {
        var _ := queue.Enqueue(record);
      }
      ForgottenExactly(old(repo.rows), record.key, pick.value, w);
      if record.key in old(repo.rows) {
        SettlingMoves(old(repo.rows), record.key, pick.value, w);
      }
    }

    lemma PickedIsKnown(known: map<Node, NodeRecord>, record: Record, pick: Option<Node>, now: int)
      requires Picks(known, record, pick, now) && pick.Some?
      ensures pick.value in known
    {
    }

    /** The next record of a batch that is worked on in order; known is the table of nodes at the start,
        and picks are the nodes of the records before. */
    method StartNext(ghost was: map<Key, Row>, ghost known: map<Node, NodeRecord>, batch: seq<Record>,
                     verdicts: seq<Verdict>, ghost picks: seq<Option<Node>>, world: Key -> World, now: int)
      returns (v: Verdict, pick: Option<Node>)
      requires Valid() && |verdicts| == |picks| < |batch| && batch[|picks|].memoryLimit < HALF && NoDuplicates(batch)
      requires WorkedOn(was, repo.rows, queue.index, batch, verdicts, world)
      requires Gained(known, nodes.nodes, batch, picks, was, world)
      modifies repo, nodes, queue, queue.arr
      ensures (queue.arr == old(queue.arr) || fresh(queue.arr)) && Valid()
              && WorkedOn(was, repo.rows, queue.index, batch, verdicts + [v], world)
      ensures (v.NoNode? <==> pick.None?) && Picks(old(nodes.nodes), batch[|picks|], pick, now)
      ensures Gained(known, nodes.nodes, batch, picks + [pick], was, world)
      ensures queue.items == old(queue.items) + if Requeues(v, world(batch[|picks|].key)) then [batch[|picks|]] else []
    {
      hide Indexed, SettledRow, VerdictOf, Forgets, Requeues, Picks, WorkedOn, NoDuplicates, Gained, Charges;
      ghost var rows, index, before := repo.rows, queue.index, nodes.nodes;
      var record := batch[|verdicts|];
      WorkIsAhead(was, rows, index, batch, verdicts, world);
      v, pick := StartRecord(record, world(record.key), now);
      WorksOnNext(was, rows, index, repo.rows, queue.index, batch, verdicts, v, world);
      if pick.None? {
        NobodyGains(known, before, nodes.nodes, batch, picks, was, world);
      } else {
        PickedIsKnown(before, record, pick, now);
        ChargesLooksAtItsRow(before, nodes.nodes, pick.value, record.memoryLimit, rows, was, record.key,
                             world(record.key), maxFailures);
        OneGains(known, before, nodes.nodes, pick.value, batch, picks, was, world, maxFailures);
      }
    }

    /** tables are the tables of nodes around the records: for each the pick was right. */
    ghost predicate AllPicked(tables: seq<map<Node, NodeRecord>>, batch: seq<Record>, verdicts: seq<Verdict>,
                              picks: seq<Option<Node>>, now: int) {
      && |verdicts| == |picks| <= |batch| && |tables| == |picks| + 1
      && forall i: nat :: i < |picks| ==>
           (verdicts[i].NoNode? <==> picks[i].None?) && Picks(tables[i], batch[i], picks[i], now)
    }

    lemma OneMorePicked(tables: seq<map<Node, NodeRecord>>, table: map<Node, NodeRecord>, batch: seq<Record>,
                        verdicts: seq<Verdict>, v: Verdict, picks: seq<Option<Node>>, pick: Option<Node>, now: int)
      requires AllPicked(tables, batch, verdicts, picks, now) && |picks| < |batch|
      requires (v.NoNode? <==> pick.None?) && Picks(tables[|picks|], batch[|picks|], pick, now)
      ensures AllPicked(tables + [table], batch, verdicts + [v], picks + [pick], now)
    {
      hide Picks;
    }

    /** Works on the records of a batch in order. */
    method WorkThrough(batch: seq<Record>, world: Key -> World, now: int)
      returns (verdicts: seq<Verdict>, ghost picks: seq<Option<Node>>, ghost tables: seq<map<Node, NodeRecord>>)
      requires Valid() && NoDuplicates(batch)
      requires forall i :: 0 <= i < |batch| ==> batch[i].memoryLimit < HALF && batch[i].key !in queue.index
      modifies repo, nodes, queue, queue.arr
      ensures (queue.arr == old(queue.arr) || fresh(queue.arr)) && Valid()
      ensures |verdicts| == |batch| && WorkedOn(old(repo.rows), repo.rows, queue.index, batch, verdicts, world)
      ensures AllPicked(tables, batch, verdicts, picks, now)
      ensures tables[0] == old(nodes.nodes) && tables[|batch|] == nodes.nodes
      ensures Gained(old(nodes.nodes), nodes.nodes, batch, picks, old(repo.rows), world)
      ensures queue.items == old(queue.items) + RequeuedOf(batch, verdicts, world)
    {
      verdicts, picks, tables := [], [], [nodes.nodes];
      StartsUnworked(repo.rows, queue.index, batch, world);
      NothingGained(nodes.nodes, batch, repo.rows, world);
      NoneRequeued(queue.items, batch, world);
      hide Indexed, NoDuplicates, Picks, WorkedOn, Gained, RequeuedOf, Requeues;
      for i := 0 to |batch|
        invariant Valid() && |verdicts| == i && (queue.arr == old(queue.arr) || fresh(queue.arr))
        invariant AllPicked(tables, batch, verdicts, picks, now)
        invariant tables[0] == old(nodes.nodes) && tables[i] == nodes.nodes
        invariant WorkedOn(old(repo.rows), repo.rows, queue.index, batch, verdicts, world)
        invariant queue.items == old(queue.items) + RequeuedOf(batch, verdicts, world)
        invariant Gained(old(nodes.nodes), nodes.nodes, batch, picks, old(repo.rows), world)
      {
        var v, pick := StartNext(old(repo.rows), old(nodes.nodes), batch, verdicts, picks, world, now);
        OneMorePicked(tables, nodes.nodes, batch, verdicts, v, picks, pick, now);
        RequeuedNext(old(queue.items), batch, verdicts, v, world);
        verdicts := verdicts + [v];
        picks := picks + [pick];
        tables := tables + [nodes.nodes];
      }
    }

    /** One tick: everything queued is taken and worked on in order. A record of the batch is
        afterwards PENDING without being queued, so that it waits for the next restart, exactly if
        its node refused it for now and the database put it back to PENDING but reported an error. */
    method RunOnce(world: Key -> World, now: int)
      returns (batch: seq<Record>, verdicts: seq<Verdict>, ghost picks: seq<Option<Node>>,
               ghost tables: seq<map<Node, NodeRecord>>)
      requires Valid() && forall i :: 0 <= i < |queue.items| ==> queue.items[i].memoryLimit < HALF
      modifies repo, nodes, queue, queue.arr
      ensures (queue.arr == old(queue.arr) || fresh(queue.arr)) && Valid() && batch == old(queue.items)
              && |verdicts| == |batch|
      ensures repo.rows.Keys == old(repo.rows.Keys)
      ensures forall k ::
              k in old(repo.rows) && (forall i :: 0 <= i < |batch| ==> batch[i].key != k) ==>
              repo.rows[k] == old(repo.rows)[k]
      ensures forall i ::
              0 <= i < |batch| && !verdicts[i].NoNode? ==>
              verdicts[i] == VerdictOf(old(repo.rows), batch[i].key, world(batch[i].key))
      ensures forall i :: 0 <= i < |batch| && batch[i].key in old(repo.rows) ==>
                (Forgotten(batch[i].key) <==> Forgets(verdicts[i], world(batch[i].key)))
      ensures AllPicked(tables, batch, verdicts, picks, now)
      ensures tables[0] == old(nodes.nodes) && tables[|batch|] == nodes.nodes
      ensures Gained(old(nodes.nodes), nodes.nodes, batch, picks, old(repo.rows), world)
      ensures queue.items == RequeuedOf(batch, verdicts, world)
    {
      assert NoDuplicates(queue.items);
      hide Indexed, NoDuplicates, VerdictOf, Forgets, Picks, WorkedOn, Gained, RequeuedOf;
      batch := queue.PopBatch(queue.hi - queue.lo);
      assert batch == old(queue.items);
      verdicts, picks, tables := WorkThrough(batch, world, now);
      AllWorkedOn(old(repo.rows), repo.rows, queue.index, batch, verdicts, world);
    }

    /** The experiment could be started, but its record is not queued. */
    predicate Forgotten(k: Key)
      reads repo, queue
    {
      Left(repo.rows, queue.index, k)
    }
  }

  /** The node has no free slot, and the update back to PENDING takes effect although it is reported
      as failed. */
  function Refusing(k: Key): World {
    World(Done, Some(Rejected(NoFreeSlots)), FailedAfter)
  }

  /** One record is queued, its row is PENDING, and the one node, just seen, has room. */
  ghost predicate OneQueued(s: Scheduler, record: Record, node: NodeStatus, now: int)
    reads s, s.repo, s.nodes, s.queue, s.queue.arr
  {
    && s.Valid() && s.queue.items == [record] && s.repo.rows == map[record.key := Row(Pending, None, None)]
    && s.nodes.nodes == map[node.id := NodeRecord(node, now, 0, 0, 0)]
    && s.Takes(s.nodes.nodes[node.id], record, now)
  }

  method QueueOne(record: Record, node: NodeStatus, now: int) returns (s: Scheduler)
    requires node.id != "" && node.address != "" && node.goos != "" && node.goarch != ""
    requires node.goos == Trim(record.goos) && node.goarch == Trim(record.goarch)
    requires Plausible(node) && node.usedSlots < node.totalSlots && record.memoryLimit == 0
    ensures fresh(s) && fresh(s.repo) && fresh(s.nodes) && fresh(s.queue) && fresh(s.queue.arr)
    ensures OneQueued(s, record, node, now)
  {
    hide Trim, Indexed, NoDuplicates, WithinCapacity;
    s := new Scheduler(0, 3);
    s.repo.Insert(record.key);
    var _ := s.nodes.Register(node, now);
    var _ := s.queue.Enqueue(record);
  }

  /** The tick forgets the record. */
  method TickForgets(s: Scheduler, record: Record, node: NodeStatus, now: int)
    requires OneQueued(s, record, node, now) && record.memoryLimit == 0
    modifies s.repo, s.nodes, s.queue, s.queue.arr
    ensures s.Forgotten(record.key)
  {
    hide Indexed, NoDuplicates, WithinCapacity, CanTake, Left, Gained;
    ghost var known := s.nodes.nodes;
    assert node.id in known && s.Takes(known[node.id], record, now);
    var batch, verdicts, picks, tables := s.RunOnce(Refusing, now);
    assert batch[0] == record && s.Picks(tables[0], batch[0], picks[0], now);
    assert !s.NoneFits(known, record, now);
  }

  method ForgetsARecord(record: Record, node: NodeStatus, now: int) returns (s: Scheduler)
    requires node.id != "" && node.address != "" && node.goos != "" && node.goarch != ""
    requires node.goos == Trim(record.goos) && node.goarch == Trim(record.goarch)
    requires Plausible(node) && node.usedSlots < node.totalSlots && record.memoryLimit == 0
    ensures fresh(s) && s.Forgotten(record.key)
  {
    s := QueueOne(record, node, now);
    hide *;
    TickForgets(s, record, node, now);
  }
}
