/** Result delivery: what a task produced is in its worker's hand, in a journal or in the database
    until a crash or a damaged file destroys it, and what the database has stored stays. */
module Delivery {
  import opened Options
  import opened Protocol
  import opened StartSafety

  // ---------- where results are ----------

  predicate Stored(s: State, r: Result) {
    r.key in s.db && s.db[r.key].result == Some(r) && s.db[r.key].status == r.status
  }

  ghost predicate InHand(s: State, r: Result) {
    exists n {:trigger At(s, n)} :: r.key in At(s, n).hand && At(s, n).hand[r.key] == r
  }

  ghost predicate InJournal(s: State, r: Result, names: Key -> string) {
    exists n {:trigger At(s, n)} :: names(r.key) in At(s, n).journal && At(s, n).journal[names(r.key)] == Readable(r)
  }

  ghost predicate Kept(s: State, r: Result, names: Key -> string) {
    r in s.lost || InHand(s, r) || InJournal(s, r, names) || Stored(s, r)
  }

  /** No two experiments of the database share a journal file name. */
  ghost predicate DistinctNames(s: State, names: Key -> string) {
    forall k, l {:trigger names(k), names(l)} :: k in s.db && l in s.db && names(k) == names(l) ==> k == l
  }

  // ---------- invariants ----------

  /** An experiment runs on one dispatcher, and once it has a result it has no other. */
  ghost predicate OneResult(s: State) {
    && (forall n, l, k {:trigger k in At(s, n).running, k in At(s, l).running} ::
         k in At(s, n).running && k in At(s, l).running ==> n == l)
    && (forall n, k, r {:trigger k in At(s, n).running, r in s.finished} ::
         k in At(s, n).running && r in s.finished ==> r.key != k)
    && (forall r, q {:trigger r in s.finished, q in s.finished} ::
         r in s.finished && q in s.finished && r.key == q.key ==> r == q)
  }

  ghost predicate RowsAreGenuine(s: State) {
    forall k {:trigger s.db[k]} :: k in s.db && s.db[k].result.Some? ==>
      var r := s.db[k].result.value; r in s.finished && r.key == k && s.db[k].status == r.status
  }

  ghost predicate FilesAreNamed(s: State, names: Key -> string) {
    && (forall n, f {:trigger f in At(s, n).journal} ::
         f in At(s, n).journal && At(s, n).journal[f].Readable? ==> names(At(s, n).journal[f].result.key) == f)
    && (forall n {:trigger At(s, n).sending} ::
         At(s, n).sending.Some? ==> names(At(s, n).sending.value.result.key) == At(s, n).sending.value.file)
  }

  ghost predicate AcksAreStored(s: State) {
    forall a {:trigger a in s.acks} :: a in s.acks ==> a.result in s.finished && Stored(s, a.result)
  }

  ghost predicate AllKept(s: State, names: Key -> string) {
    forall r {:trigger r in s.finished} :: r in s.finished ==> Kept(s, r, names)
  }

  ghost predicate DeliveryInv(s: State, names: Key -> string) {
    Inv(s) && OneResult(s) && RowsAreGenuine(s) && FilesAreNamed(s, names) && AcksAreStored(s)
  }

  lemma RunningChanges(s: State, step: Step, names: Key -> string, n: Node, k: Key)
    requires Enabled(s, step, names) && k in At(Apply(s, step, names), n).running
    ensures k in At(s, n).running || (step.HandOver? && s.calls[step.call] == Call(k, n, Admitted))
    ensures !(step.Complete? && step.node == n && step.key == k)
  {
    if AwayFromDispatchers(step) {
      hide Apply, Enabled;
      DispatchersStay(s, step, names);
    }
  }

  lemma FinishedChanges(s: State, step: Step, names: Key -> string, r: Result)
    requires Enabled(s, step, names) && r in Apply(s, step, names).finished
    ensures r in s.finished || (step.Complete? && r.key == step.key
            && r == Result(step.key, FinishedEntry(At(s, step.node), step.key, step.status).status, step.payload))
  {
  }

  lemma KeepsOneResult(s: State, step: Step, names: Key -> string)
    requires DeliveryInv(s, names) && Enabled(s, step, names)
    ensures OneResult(Apply(s, step, names))
  {
    var s' := Apply(s, step, names);
    forall n, l, k | k in At(s', n).running && k in At(s', l).running
      ensures n == l
    {
      RunningChanges(s, step, names, n, k);
      RunningChanges(s, step, names, l, k);
    }
    forall n, k, r | k in At(s', n).running && r in s'.finished
      ensures r.key != k
    {
      RunningChanges(s, step, names, n, k);
      FinishedChanges(s, step, names, r);
    }
    forall r, q | r in s'.finished && q in s'.finished && r.key == q.key
      ensures r == q
    {
      FinishedChanges(s, step, names, r);
      FinishedChanges(s, step, names, q);
    }
  }

  lemma ResultChanges(s: State, step: Step, names: Key -> string, k: Key)
    requires Inv(s) && RowsAreGenuine(s) && Enabled(s, step, names) && k in Apply(s, step, names).db
    ensures var row := Apply(s, step, names).db[k];
            row.result.Some? ==>
              || (k in s.db && row == s.db[k])
              || (step.StoreReport? && step.report.result == row.result.value && step.report.result.key == k
                   && row.status == step.report.result.status)
  {
    if k in s.db {
      RowWritten(s, step, names, k);
      hide Apply;
      assert s.db[k].result.Some? ==> s.db[k].result.value in s.finished && Terminal(s.db[k].status);
    }
  }

  lemma KeepsRowsAreGenuine(s: State, step: Step, names: Key -> string)
    requires DeliveryInv(s, names) && Enabled(s, step, names)
    ensures RowsAreGenuine(Apply(s, step, names))
  {
    var s' := Apply(s, step, names);
    FinishedGrows(s, step, names);
    forall k | k in s'.db && s'.db[k].result.Some?
      ensures var r := s'.db[k].result.value; r in s'.finished && r.key == k && s'.db[k].status == r.status
    {
      ResultChanges(s, step, names, k);
    }
  }

  lemma KeepsFilesAreNamed(s: State, step: Step, names: Key -> string)
    requires DeliveryInv(s, names) && Enabled(s, step, names)
    ensures FilesAreNamed(Apply(s, step, names), names)
  {
    var s' := Apply(s, step, names);
    forall n, f | f in At(s', n).journal && At(s', n).journal[f].Readable?
      ensures names(At(s', n).journal[f].result.key) == f
    {
      JournalChanges(s, step, names, n, f);
    }
    forall n | At(s', n).sending.Some?
      ensures names(At(s', n).sending.value.result.key) == At(s', n).sending.value.file
    {
      SendingChanges(s, step, names, n);
    }
  }

  /** A stored result is never replaced: a late report can only bring the same one. */
  lemma StoredStays(s: State, step: Step, names: Key -> string, r: Result)
    requires DeliveryInv(s, names) && Enabled(s, step, names) && r in s.finished && Stored(s, r)
    ensures Stored(Apply(s, step, names), r)
  {
    TerminalStays(s, step, names, r.key);
  }

  lemma KeepsAcksAreStored(s: State, step: Step, names: Key -> string)
    requires DeliveryInv(s, names) && Enabled(s, step, names)
    ensures AcksAreStored(Apply(s, step, names))
  {
    var s' := Apply(s, step, names);
    FinishedGrows(s, step, names);
    forall a | a in s'.acks
      ensures a.result in s'.finished && Stored(s', a.result)
    {
      if a in s.acks {
        StoredStays(s, step, names, a.result);
      }
    }
  }

  // ---------- no result disappears ----------

  predicate TakesFromHand(step: Step, n: Node, k: Key) {
    ((step.Persist? || step.PersistFails? || step.Complete?) && step.node == n && step.key == k)
      || (step.RestartDispatcher? && step.node == n)
  }

  lemma HandUnchanged(s: State, step: Step, names: Key -> string, n: Node, k: Key)
    requires Enabled(s, step, names) && k in At(s, n).hand && !TakesFromHand(step, n, k)
    ensures var d := At(Apply(s, step, names), n); k in d.hand && d.hand[k] == At(s, n).hand[k]
  {
    if AwayFromDispatchers(step) {
      hide Apply, Enabled;
      DispatchersStay(s, step, names);
    }
  }

  predicate TouchesFile(step: Step, s: State, n: Node, f: string, names: Key -> string) {
    || (step.Persist? && step.node == n && names(step.key) == f)
    || ((step.Damage? || step.DropCorrupt?) && step.node == n && step.file == f)
    || (step.Acknowledge? && step.node == n && At(s, n).sending.Some? && At(s, n).sending.value.file == f)
  }

  lemma FileUnchanged(s: State, step: Step, names: Key -> string, n: Node, f: string)
    requires Enabled(s, step, names) && f in At(s, n).journal && !TouchesFile(step, s, n, f, names)
    ensures var d := At(Apply(s, step, names), n); f in d.journal && d.journal[f] == At(s, n).journal[f]
  {
    if AwayFromDispatchers(step) {
      hide Apply, Enabled;
      DispatchersStay(s, step, names);
    }
  }

  lemma HandStays(s: State, step: Step, names: Key -> string, n: Node, r: Result)
    requires DeliveryInv(s, names) && Enabled(s, step, names)
    requires r.key in At(s, n).hand && At(s, n).hand[r.key] == r
    ensures Kept(Apply(s, step, names), r, names)
  {
    if !TakesFromHand(step, n, r.key) {
      HandUnchanged(s, step, names, n, r.key);
    } else {
      assert r in s.finished;
      match step {
        case Persist(_, _) => assert At(Apply(s, step, names), n).journal[names(r.key)] == Readable(r);
        case PersistFails(_, _) =>
        case RestartDispatcher(_) => assert r in At(s, n).hand.Values;
        case Complete(_, _, _, _) => assert false;
      }
    }
  }

  lemma JournalStays(s: State, step: Step, names: Key -> string, n: Node, r: Result)
    requires DeliveryInv(s, names) && Enabled(s, step, names) && DistinctNames(s, names)
    requires names(r.key) in At(s, n).journal && At(s, n).journal[names(r.key)] == Readable(r)
    ensures Kept(Apply(s, step, names), r, names)
  {
    var f := names(r.key);
    KeyInDb(s, r.key);
    if !TouchesFile(step, s, n, f, names) {
      FileUnchanged(s, step, names, n, f);
    } else if step.Persist? {
      var q := At(s, n).hand[step.key];
      KeyInDb(s, q.key);
      assert q == r;
      assert At(Apply(s, step, names), n).journal[f] == Readable(r);
    } else if step.Acknowledge? {
      AcknowledgedIsStored(s, step, names, r);
    } else {
      assert step.Damage? && r in Apply(s, step, names).lost;
    }
  }

  lemma KeyInDb(s: State, k: Key)
    requires Inv(s)
    ensures WasAccepted(s, k) ==> k in s.db
  {
    if k !in s.db {
      assert Untouched(s, k);
    }
  }

  /** The file that the reporter removes holds the very result whose storage was confirmed. */
  lemma AcknowledgedIsStored(s: State, step: Step, names: Key -> string, r: Result)
    requires DeliveryInv(s, names) && Enabled(s, step, names) && DistinctNames(s, names) && step.Acknowledge?
    requires r in s.finished && At(s, step.node).sending.value.file == names(r.key)
    ensures At(s, step.node).sending.value.result == r && Stored(Apply(s, step, names), r)
  {
    var q := At(s, step.node).sending.value.result;
    assert Report(step.node, q) in s.acks;
    KeyInDb(s, r.key);
    KeyInDb(s, q.key);
    assert q == r;
    StoredStays(s, step, names, r);
  }

  lemma KeptStays(s: State, step: Step, names: Key -> string, r: Result)
    requires DeliveryInv(s, names) && Enabled(s, step, names) && DistinctNames(s, names)
    requires r in s.finished && Kept(s, r, names)
    ensures Kept(Apply(s, step, names), r, names)
  {
    if r in s.lost {
      assert s.lost <= Apply(s, step, names).lost;
    } else if InHand(s, r) {
      var n :| r.key in At(s, n).hand && At(s, n).hand[r.key] == r;
      HandStays(s, step, names, n, r);
    } else if InJournal(s, r, names) {
      var n :| names(r.key) in At(s, n).journal && At(s, n).journal[names(r.key)] == Readable(r);
      JournalStays(s, step, names, n, r);
    } else {
      StoredStays(s, step, names, r);
    }
  }

  lemma KeepsAllKept(s: State, step: Step, names: Key -> string)
    requires DeliveryInv(s, names) && Enabled(s, step, names) && DistinctNames(s, names) && AllKept(s, names)
    ensures AllKept(Apply(s, step, names), names)
  {
    var s' := Apply(s, step, names);
    forall r | r in s'.finished
      ensures Kept(s', r, names)
    {
      FinishedChanges(s, step, names, r);
      if r in s.finished {
        KeptStays(s, step, names, r);
      } else {
        assert r.key in At(s', step.node).hand && At(s', step.node).hand[r.key] == r;
      }
    }
  }

  // ---------- the results ----------

  lemma {:induction false} DeliveryInvOnRuns(run: seq<State>, steps: seq<Step>, names: Key -> string, i: nat)
    requires IsRun(run, steps, names) && i < |run|
    ensures DeliveryInv(run[i], names)
    decreases i
  {
    if i == 0 {
      InitialInv();
    } else {
      var s, step := run[i - 1], steps[i - 1];
      DeliveryInvOnRuns(run, steps, names, i - 1);
      assert Took(run, steps, i - 1, names);
      StepKeepsInv(s, step, names);
      KeepsOneResult(s, step, names);
      KeepsRowsAreGenuine(s, step, names);
      KeepsFilesAreNamed(s, step, names);
      KeepsAcksAreStored(s, step, names);
    }
  }

  lemma DatabaseGrows(s: State, step: Step, names: Key -> string)
    requires Enabled(s, step, names)
    ensures s.db.Keys <= Apply(s, step, names).db.Keys
  {
  }

  /** When experiments have distinct journal file names, every result that was ever produced is in a
      worker's hand, in a journal or in the database, unless a fault destroyed it. */
  lemma {:induction false} EveryResultIsKept(run: seq<State>, steps: seq<Step>, names: Key -> string, i: nat)
    requires IsRun(run, steps, names) && i < |run| && DistinctNames(run[i], names)
    ensures forall r :: r in run[i].finished ==> Kept(run[i], r, names)
    decreases i
  {
    if i > 0 {
      assert Took(run, steps, i - 1, names);
      DatabaseGrows(run[i - 1], steps[i - 1], names);
      EveryResultIsKept(run, steps, names, i - 1);
      DeliveryInvOnRuns(run, steps, names, i - 1);
      KeepsAllKept(run[i - 1], steps[i - 1], names);
    }
  }

  /** The faults: persisting fails, a journal file is damaged, or a dispatcher dies with results in hand. */
  predicate Harmless(s: State, step: Step) {
    && !step.PersistFails? && !step.Damage?
    && (step.RestartDispatcher? ==> At(s, step.node).hand == map[])
  }

  lemma {:induction false} NothingLostWithoutFaults(run: seq<State>, steps: seq<Step>, names: Key -> string, i: nat)
    requires IsRun(run, steps, names) && i < |run|
    requires forall j: nat :: j < i ==> Harmless(run[j], steps[j])
    ensures run[i].lost == {}
    decreases i
  {
    if i > 0 {
      NothingLostWithoutFaults(run, steps, names, i - 1);
      assert Took(run, steps, i - 1, names);
      assert Harmless(run[i - 1], steps[i - 1]);
    }
  }

  /** Once a result is stored, redelivery and everything else leave the row's result as it is. */
  lemma {:induction false} StoredResultNeverChanges(run: seq<State>, steps: seq<Step>, names: Key -> string, i: nat,
                                                    j: nat, r: Result)
    requires IsRun(run, steps, names) && i <= j < |run|
    requires r.key in run[i].db && run[i].db[r.key].result == Some(r)
    ensures Stored(run[j], r)
    decreases j
  {
    DeliveryInvOnRuns(run, steps, names, i);
    if i < j {
      StoredResultNeverChanges(run, steps, names, i, j - 1, r);
      DeliveryInvOnRuns(run, steps, names, j - 1);
      assert Took(run, steps, j - 1, names);
      StoredStays(run[j - 1], steps[j - 1], names, r);
    }
  }

  lemma RemovedWhenAcknowledged(s: State, step: Step, names: Key -> string, n: Node, f: string)
    requires DeliveryInv(s, names) && Enabled(s, step, names)
    requires f in At(s, n).journal && At(s, n).journal[f].Readable? && f !in At(Apply(s, step, names), n).journal
    ensures step.Acknowledge? && step.node == n && At(s, n).sending.Some? && At(s, n).sending.value.file == f
    ensures At(s, n).journal[f].result in s.finished && names(At(s, n).journal[f].result.key) == f
  {
    if !TouchesFile(step, s, n, f, names) {
      FileUnchanged(s, step, names, n, f);
    }
  }

  /** A readable journal file is removed only when its result is stored. */
  lemma RemovedOnlyWhenStored(run: seq<State>, steps: seq<Step>, names: Key -> string, i: nat, n: Node, f: string)
    requires IsRun(run, steps, names) && i < |steps| && DistinctNames(run[i], names)
    requires f in At(run[i], n).journal && At(run[i], n).journal[f].Readable? && f !in At(run[i + 1], n).journal
    ensures Stored(run[i + 1], At(run[i], n).journal[f].result)
  {
    DeliveryInvOnRuns(run, steps, names, i);
    assert Took(run, steps, i, names);
    hide IsRun, DeliveryInv, Enabled, Apply;
    RemovedWhenAcknowledged(run[i], steps[i], names, n, f);
    AcknowledgedIsStored(run[i], steps[i], names, At(run[i], n).journal[f].result);
  }
}
