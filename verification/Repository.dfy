/** The experiment rows of the database. Every method is one SQL statement, hence atomic; a failing
    statement may or may not have taken effect. */
module Repositories {
  import opened Options
  import opened Protocol

  datatype DbAnswer = Done | FailedBefore | FailedAfter

  predicate Applied(a: DbAnswer) {
    !a.FailedBefore?
  }

  class Repository {
    var rows: map<Key, Row>

    constructor ()
      ensures rows == map[]
    {
      rows := map[];
    }

    method Insert(k: Key)
      requires k !in rows
      modifies this
      ensures rows == old(rows)[k := Row(Pending, None, None)]
    {
      rows := rows[k := Row(Pending, None, None)];
    }

    /** Succeeds exactly for a PENDING row. */
    method TryMarkExperimentStarting(k: Key, n: Node, a: DbAnswer) returns (acquired: bool, failed: bool)
      modifies this
      ensures failed == !a.Done?
      ensures acquired == (a.Done? && k in old(rows) && old(rows)[k].status.Pending?)
      ensures rows == if Applied(a) && k in old(rows) && old(rows)[k].status.Pending?
              then old(rows)[k := Row(Starting, Some(n), old(rows)[k].result)] else old(rows)
    {
      var hit := k in rows && rows[k].status.Pending?;
      if Applied(a) && hit {
        rows := rows[k := StartingRow(rows[k], n)];
      }
      acquired, failed := a.Done? && hit, !a.Done?;
    }

    method MarkExperimentPending(k: Key, a: DbAnswer) returns (failed: bool)
      modifies this
      ensures failed == !a.Done?
      ensures rows == if Applied(a) && k in old(rows) then old(rows)[k := Row(Pending, None, old(rows)[k].result)]
              else old(rows)
    {
      if Applied(a) && k in rows {
        rows := rows[k := PendingRow(rows[k])];
      }
      failed := !a.Done?;
    }

    method MarkExperimentFailedToStart(k: Key, n: Node, a: DbAnswer) returns (failed: bool)
      modifies this
      ensures failed == !a.Done?
      ensures rows == if Applied(a) && k in old(rows) then old(rows)[k := Row(Failed, Some(n), old(rows)[k].result)]
              else old(rows)
    {
      if Applied(a) && k in rows {
        rows := rows[k := FailedToStartRow(rows[k], n)];
      }
      failed := !a.Done?;
    }

    method MarkPendingExperimentCanceled(k: Key, a: DbAnswer) returns (canceled: bool, failed: bool)
      modifies this
      ensures failed == !a.Done?
      ensures canceled == (a.Done? && k in old(rows) && old(rows)[k].status.Pending?)
      ensures rows == if Applied(a) && k in old(rows) && old(rows)[k].status.Pending?
              then old(rows)[k := old(rows)[k].(status := Canceled)] else old(rows)
    {
      var hit := k in rows && rows[k].status.Pending?;
      if Applied(a) && hit {
        rows := rows[k := rows[k].(status := Canceled)];
      }
      canceled, failed := a.Done? && hit, !a.Done?;
    }

    /** The rows whose node is gone: started, not updated since the grace period, on no active node. */
    predicate Orphaned(k: Key, active: set<Node>, stale: set<Key>)
      reads this
    {
      && k in rows && (rows[k].status.Starting? || rows[k].status.Running?) && k in stale
      && rows[k].node.Some? && rows[k].node.value !in active
    }

    method MarkOrphanedExperimentsFailed(active: set<Node>, stale: set<Key>, a: DbAnswer)
      returns (lost: set<Key>, failed: bool)
      modifies this
      ensures failed == !a.Done?
      ensures lost == if a.Done? then set k | k in old(rows) && old(Orphaned(k, active, stale)) else {}
      ensures rows ==
              if !Applied(a) then old(rows)
              else map k | k in old(rows) ::
                     if old(Orphaned(k, active, stale)) then old(rows)[k].(status := Failed) else old(rows)[k]
    {
      failed := !a.Done?;
      lost := if a.Done? then set k | k in rows && Orphaned(k, active, stale) else {};
      if Applied(a) {
        rows := map k | k in rows :: if Orphaned(k, active, stale) then rows[k].(status := Failed) else rows[k];
      }
    }

    /** No guard: whatever the row says, the reported result replaces it. */
    method UpdateExperimentResult(n: Node, r: Result, a: DbAnswer) returns (found: bool, failed: bool)
      modifies this
      ensures failed == !a.Done? && found == (a.Done? && r.key in old(rows))
      ensures rows == if Applied(a) && r.key in old(rows) then old(rows)[r.key := Row(r.status, Some(n), Some(r))]
              else old(rows)
    {
      if Applied(a) && r.key in rows {
        rows := rows[r.key := ResultRow(rows[r.key], n, r)];
      }
      found, failed := a.Done? && r.key in rows, !a.Done?;
    }
  }

  function FailedRows(rows: map<Key, Row>, lost: seq<Key>): map<Key, Row> {
    map k | k in rows :: if k in lost then rows[k].(status := Failed) else rows[k]
  }

  /** The one statement that fails all orphans amounts to single reconciling steps in any order. */
  lemma {:induction false} OrphansAreReconcileSteps(s: State, lost: seq<Key>, names: Key -> string)
    returns (run: seq<State>)
    requires s.phase.Idle?
    requires forall i :: 0 <= i < |lost| ==> Enabled(s, Reconcile(lost[i]), names)
    requires forall i, j :: 0 <= i < j < |lost| ==> lost[i] != lost[j]
    ensures |run| == |lost| + 1 && run[0] == s && run[|lost|] == s.(db := FailedRows(s.db, lost))
    ensures forall i: nat {:trigger lost[i]} :: i < |lost| ==>
              Enabled(run[i], Reconcile(lost[i]), names) && run[i + 1] == Apply(run[i], Reconcile(lost[i]), names)
  {
    if lost == [] {
      run := [s];
      assert s.db == FailedRows(s.db, lost);
    } else {
      var n := |lost| - 1;
      var k := lost[n];
      run := OrphansAreReconcileSteps(s, lost[..n], names);
      var last := Apply(run[n], Reconcile(k), names);
      assert last.db == FailedRows(s.db, lost);
      assert forall i: nat :: i < n ==> lost[..n][i] == lost[i];
      run := run + [last];
    }
  }
}
