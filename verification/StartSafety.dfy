/** At most one start: in every run an experiment is handed to a worker at most once, on one
    dispatcher, and a row that is PENDING has no request, task or result anywhere. */
module StartSafety {
  import opened Options
  import opened Protocol

  // ---------- the joint invariant ----------

  predicate WasAccepted(s: State, k: Key) {
    exists i: nat :: i < |s.accepted| && s.accepted[i].key == k
  }

  /** The request may still be accepted. */
  predicate Live(call: Call) {
    call.phase.Sent? || call.phase.Admitted?
  }

  /** Nothing of k is under way outside the database. */
  predicate Untouched(s: State, k: Key) {
    && !WasAccepted(s, k)
    && forall c: nat :: c < |s.calls| && s.calls[c].key == k ==> !Live(s.calls[c])
  }

  predicate HasStatus(s: State, k: Key, st: Status) {
    k in s.db && s.db[k].status == st
  }

  ghost predicate PendingIsUntouched(s: State) {
    forall k {:trigger Untouched(s, k)} :: k !in s.db || s.db[k].status.Pending? ==> Untouched(s, k)
  }

  ghost predicate AcceptedOnce(s: State) {
    forall i, j :: 0 <= i < j < |s.accepted| ==> s.accepted[i].key != s.accepted[j].key
  }

  /** Of all requests for one experiment at most one can still be accepted, and none once one was. */
  ghost predicate OneLiveCall(s: State) {
    && (forall c, d ::
         0 <= c < d < |s.calls| && Live(s.calls[c]) && Live(s.calls[d]) ==> s.calls[c].key != s.calls[d].key)
    && (forall c: nat :: c < |s.calls| && Live(s.calls[c]) ==> !WasAccepted(s, s.calls[c].key))
  }

  /** While the scheduler holds a record, its row is STARTING unless the experiment was accepted. */
  ghost predicate PhaseFits(s: State) {
    match s.phase
    case Idle => true
    case Marked(k, n) => HasStatus(s, k, Starting) && Untouched(s, k)
    case Waiting(k, c) =>
      && c < |s.calls| && s.calls[c].key == k
      && (forall d: nat :: d < |s.calls| && d != c && s.calls[d].key == k ==> !Live(s.calls[d]))
      && k in s.db && !s.db[k].status.Pending?
      && (WasAccepted(s, k) || HasStatus(s, k, Starting))
      && (WasAccepted(s, k) && s.calls[c].phase.Answered? ==> s.calls[c].phase.response.Accepted?)
    case Decided(k, n, outcome) =>
      && k in s.db && !s.db[k].status.Pending?
      && (outcome.Retryable? || outcome.Fatal? ==> HasStatus(s, k, Starting) && Untouched(s, k))
  }

  /** Tasks, results and reports stem from accepted requests. */
  ghost predicate WorkWasAccepted(s: State) {
    && (forall n, k {:trigger k in At(s, n).running} :: k in At(s, n).running ==> WasAccepted(s, k))
    && (forall r {:trigger r in s.finished} :: r in s.finished ==> WasAccepted(s, r.key))
  }

  /** Whatever is on its way to the database is a result that some task produced. */
  ghost predicate ResultsAreGenuine(s: State) {
    && (forall n, k {:trigger k in At(s, n).hand} ::
         k in At(s, n).hand ==> At(s, n).hand[k] in s.finished && At(s, n).hand[k].key == k)
    && (forall n, f {:trigger f in At(s, n).journal} ::
         f in At(s, n).journal && At(s, n).journal[f].Readable? ==> At(s, n).journal[f].result in s.finished)
    && (forall n {:trigger At(s, n).sending} :: At(s, n).sending.Some? ==> At(s, n).sending.value.result in s.finished)
    && (forall r {:trigger r in s.reports} :: r in s.reports ==> r.result in s.finished)
    && (forall r {:trigger r in s.finished} :: r in s.finished ==> Terminal(r.status))
  }

  ghost predicate Inv(s: State) {
    PendingIsUntouched(s) && AcceptedOnce(s) && OneLiveCall(s) && PhaseFits(s) && WorkWasAccepted(s)
      && ResultsAreGenuine(s)
  }

  lemma InitialInv()
    ensures Inv(INITIAL)
  {
  }

  // ---------- every step keeps it ----------

  lemma AcceptedChanges(s: State, step: Step, names: Key -> string, k: Key)
    requires Enabled(s, step, names)
    ensures WasAccepted(Apply(s, step, names), k) <==>
            WasAccepted(s, k) || (step.HandOver? && s.calls[step.call].key == k)
  {
    var s' := Apply(s, step, names);
    if step.HandOver? {
      assert s'.accepted[|s.accepted|].key == s.calls[step.call].key;
      assert forall i: nat :: i < |s.accepted| ==> s'.accepted[i] == s.accepted[i];
    } else {
      assert s'.accepted == s.accepted;
    }
  }

  lemma CallsChange(s: State, step: Step, names: Key -> string, c: nat)
    requires Enabled(s, step, names) && c < |s.calls|
    ensures var s' := Apply(s, step, names);
            && |s.calls| <= |s'.calls|
            && s'.calls[c].key == s.calls[c].key && (Live(s'.calls[c]) ==> Live(s.calls[c]))
            && (step.HandOver? && step.call == c ==> Live(s.calls[c]) && !Live(s'.calls[c]))
  {
  }

  lemma CallsAdded(s: State, step: Step, names: Key -> string)
    requires Enabled(s, step, names)
    ensures var s' := Apply(s, step, names);
            if step.SendStart? then s'.calls == s.calls + [Call(s.phase.key, s.phase.node, Sent)]
              else |s'.calls| == |s.calls|
  {
  }

  /** What is untouched stays so, except through the scheduler sending its request. */
  lemma StaysUntouched(s: State, step: Step, names: Key -> string, k: Key)
    requires Inv(s) && Enabled(s, step, names) && Untouched(s, k)
    ensures Untouched(Apply(s, step, names), k) || (step.SendStart? && s.phase.key == k)
  {
    var s' := Apply(s, step, names);
    AcceptedChanges(s, step, names, k);
    CallsAdded(s, step, names);
    forall c: nat | c < |s.calls|
      ensures s'.calls[c].key == s.calls[c].key && (Live(s'.calls[c]) ==> Live(s.calls[c]))
    {
      CallsChange(s, step, names, c);
    }
  }

  lemma RowsChange(s: State, step: Step, names: Key -> string, k: Key)
    requires Inv(s) && Enabled(s, step, names)
    ensures var s' := Apply(s, step, names);
            && (k !in s'.db || s'.db[k].status.Pending? ==>
                  k !in s.db || s.db[k].status.Pending?
                    || (step.Settle? && s.phase.key == k && s.phase.outcome.Retryable?))
  {
  }

  lemma KeepsPendingIsUntouched(s: State, step: Step, names: Key -> string)
    requires Inv(s) && Enabled(s, step, names)
    ensures PendingIsUntouched(Apply(s, step, names))
  {
    var s' := Apply(s, step, names);
    forall k | k !in s'.db || s'.db[k].status.Pending?
      ensures Untouched(s', k)
    {
      RowsChange(s, step, names, k);
      StaysUntouched(s, step, names, k);
    }
  }

  lemma KeepsAcceptedOnce(s: State, step: Step, names: Key -> string)
    requires Inv(s) && Enabled(s, step, names)
    ensures AcceptedOnce(Apply(s, step, names))
  {
  }

  lemma KeepsOneLiveCall(s: State, step: Step, names: Key -> string)
    requires Inv(s) && Enabled(s, step, names)
    ensures OneLiveCall(Apply(s, step, names))
  {
    var s' := Apply(s, step, names);
    CallsAdded(s, step, names);
    forall c: nat | c < |s'.calls| && Live(s'.calls[c])
      ensures !WasAccepted(s', s'.calls[c].key)
    {
      AcceptedChanges(s, step, names, s'.calls[c].key);
      if c < |s.calls| {
        CallsChange(s, step, names, c);
      }
    }
    forall c, d | 0 <= c < d < |s'.calls| && Live(s'.calls[c]) && Live(s'.calls[d])
      ensures s'.calls[c].key != s'.calls[d].key
    {
      CallsChange(s, step, names, c);
      if d < |s.calls| {
        CallsChange(s, step, names, d);
      }
    }
  }

  lemma KeepsWorkWasAccepted(s: State, step: Step, names: Key -> string)
    requires Inv(s) && Enabled(s, step, names)
    ensures WorkWasAccepted(Apply(s, step, names))
  {
    var s' := Apply(s, step, names);
    forall n, k | k in At(s', n).running
      ensures WasAccepted(s', k)
    {
      AcceptedChanges(s, step, names, k);
      assert k in At(s, n).running || step.HandOver?;
    }
    forall r | r in s'.finished
      ensures WasAccepted(s', r.key)
    {
      AcceptedChanges(s, step, names, r.key);
      assert r in s.finished || (step.Complete? && step.key in At(s, step.node).running);
    }
  }

  predicate SchedulerStep(step: Step) {
    step.MarkStarting? || step.SendStart? || step.SendFails? || step.Receive? || step.GiveUp? || step.Settle?
      || step.RestartControlPlane?
  }

  /** Rows that are not PENDING change only by reports, by reconciling and by the scheduler. */
  lemma RowStays(s: State, step: Step, names: Key -> string, k: Key)
    requires Inv(s) && Enabled(s, step, names) && !SchedulerStep(step)
    requires k in s.db && !s.db[k].status.Pending?
    ensures var s' := Apply(s, step, names);
            && k in s'.db && !s'.db[k].status.Pending?
            && (s'.db[k] == s.db[k] || s.phase.Idle?
                 || (step.StoreReport? && step.report.result.key == k && WasAccepted(s, k)))
  {
  }

  lemma OthersKeepWaiting(s: State, step: Step, names: Key -> string)
    requires Inv(s) && Enabled(s, step, names) && !SchedulerStep(step) && s.phase.Waiting?
    ensures PhaseFits(Apply(s, step, names))
  {
    var s' := Apply(s, step, names);
    var k, c := s.phase.key, s.phase.call;
    RowStays(s, step, names, k);
    AcceptedChanges(s, step, names, k);
    CallsAdded(s, step, names);
    forall d: nat | d < |s'.calls|
      ensures s'.calls[d].key == s.calls[d].key && (Live(s'.calls[d]) ==> Live(s.calls[d]))
    {
      CallsChange(s, step, names, d);
    }
    AnswerFits(s, step, names, c);
  }

  /** An accepted experiment cannot be refused in the same answer. */
  lemma AnswerFits(s: State, step: Step, names: Key -> string, c: nat)
    requires Inv(s) && Enabled(s, step, names) && !SchedulerStep(step) && s.phase.Waiting? && s.phase.call == c
    ensures var s' := Apply(s, step, names);
            c < |s'.calls| && (WasAccepted(s', s.phase.key) && s'.calls[c].phase.Answered? ==>
                s'.calls[c].phase.response.Accepted?)
  {
    AcceptedChanges(s, step, names, s.phase.key);
    CallsChange(s, step, names, c);
  }

  lemma OthersKeepPhase(s: State, step: Step, names: Key -> string)
    requires Inv(s) && Enabled(s, step, names) && !SchedulerStep(step) && !s.phase.Waiting?
    ensures PhaseFits(Apply(s, step, names))
  {
    var s' := Apply(s, step, names);
    assert s'.phase == s.phase;
    if !s.phase.Idle? {
      RowStays(s, step, names, s.phase.key);
      if Untouched(s, s.phase.key) {
        StaysUntouched(s, step, names, s.phase.key);
      }
    }
  }

  lemma SchedulerKeepsPhase(s: State, step: Step, names: Key -> string)
    requires Inv(s) && Enabled(s, step, names) && SchedulerStep(step)
    ensures PhaseFits(Apply(s, step, names))
  {
    var s' := Apply(s, step, names);
    CallsAdded(s, step, names);
    match step {
      case MarkStarting(k, n) =>
        assert Untouched(s, k);
        StaysUntouched(s, step, names, k);
      case SendStart =>
        AcceptedChanges(s, step, names, s.phase.key);
      case SendFails =>
      case Receive =>
        AcceptedChanges(s, step, names, s.phase.key);
        ReceivedIsUntouched(s, step, names);
      case GiveUp =>
        AcceptedChanges(s, step, names, s.phase.key);
      case Settle(applied) =>
      case RestartControlPlane =>
    }
  }

  lemma ReceivedIsUntouched(s: State, step: Step, names: Key -> string)
    requires Inv(s) && Enabled(s, step, names) && step.Receive?
    ensures !WasAccepted(s, s.phase.key) ==> Untouched(Apply(s, step, names), s.phase.key)
  {
    AcceptedChanges(s, step, names, s.phase.key);
  }

  lemma KeepsPhaseFits(s: State, step: Step, names: Key -> string)
    requires Inv(s) && Enabled(s, step, names)
    ensures PhaseFits(Apply(s, step, names))
  {
    if SchedulerStep(step) {
      SchedulerKeepsPhase(s, step, names);
    } else if s.phase.Waiting? {
      OthersKeepWaiting(s, step, names);
    } else {
      OthersKeepPhase(s, step, names);
    }
  }

  lemma FinishedGrows(s: State, step: Step, names: Key -> string)
    requires Inv(s) && Enabled(s, step, names)
    ensures var s' := Apply(s, step, names);
            s.finished <= s'.finished && forall r {:trigger r in s'.finished} :: r in s'.finished ==> Terminal(r.status)
  {
  }

  lemma HandIsGenuine(s: State, step: Step, names: Key -> string, n: Node, k: Key)
    requires Inv(s) && Enabled(s, step, names) && k in At(Apply(s, step, names), n).hand
    ensures var s' := Apply(s, step, names); At(s', n).hand[k] in s'.finished && At(s', n).hand[k].key == k
  {
    FinishedGrows(s, step, names);
    assert k in At(s, n).hand || step.Complete?;
  }

  predicate WritesJournal(step: Step) {
    step.Persist? || step.Damage? || step.Acknowledge? || step.DropCorrupt?
  }

  /** The steps of the scheduler, of the database and of requests under way. */
  predicate AwayFromDispatchers(step: Step) {
    || SchedulerStep(step) || step.Submit? || step.MarkStartingFails? || step.CancelPending? || step.Reconcile?
    || step.Refuse? || step.Lose? || step.StoreReport?
  }

  lemma DispatchersStay(s: State, step: Step, names: Key -> string)
    requires Enabled(s, step, names) && AwayFromDispatchers(step)
    ensures Apply(s, step, names).dispatchers == s.dispatchers
  {
  }

  lemma OthersKeepJournal(s: State, step: Step, names: Key -> string, n: Node)
    requires Enabled(s, step, names) && !WritesJournal(step)
    ensures At(Apply(s, step, names), n).journal == At(s, n).journal
  {
    if AwayFromDispatchers(step) {
      hide Apply, Enabled;
      DispatchersStay(s, step, names);
    }
  }

  lemma JournalChanges(s: State, step: Step, names: Key -> string, n: Node, f: string)
    requires Enabled(s, step, names)
    requires f in At(Apply(s, step, names), n).journal && At(Apply(s, step, names), n).journal[f].Readable?
    ensures var r := At(Apply(s, step, names), n).journal[f];
            || (f in At(s, n).journal && At(s, n).journal[f] == r)
            || (step.Persist? && step.node == n && f == names(step.key) && step.key in At(s, n).hand
                 && r == Readable(At(s, n).hand[step.key]))
  {
    if !WritesJournal(step) {
      hide Apply, Enabled;
      OthersKeepJournal(s, step, names, n);
    }
  }

  lemma JournalIsGenuine(s: State, step: Step, names: Key -> string, n: Node, f: string)
    requires Inv(s) && Enabled(s, step, names)
    requires f in At(Apply(s, step, names), n).journal && At(Apply(s, step, names), n).journal[f].Readable?
    ensures var s' := Apply(s, step, names); At(s', n).journal[f].result in s'.finished
  {
    FinishedGrows(s, step, names);
    JournalChanges(s, step, names, n, f);
  }

  lemma KeepsResultsAreGenuine(s: State, step: Step, names: Key -> string)
    requires Inv(s) && Enabled(s, step, names)
    ensures ResultsAreGenuine(Apply(s, step, names))
  {
    var s' := Apply(s, step, names);
    FinishedGrows(s, step, names);
    forall n, k | k in At(s', n).hand
      ensures At(s', n).hand[k] in s'.finished && At(s', n).hand[k].key == k
    {
      HandIsGenuine(s, step, names, n, k);
    }
    forall n, f | f in At(s', n).journal && At(s', n).journal[f].Readable?
      ensures At(s', n).journal[f].result in s'.finished
    {
      JournalIsGenuine(s, step, names, n, f);
    }
    SentIsGenuine(s, step, names);
  }

  predicate SetsSending(step: Step) {
    step.SendReport? || step.Acknowledge? || step.ReportFails? || step.RestartDispatcher?
  }

  lemma OthersKeepSending(s: State, step: Step, names: Key -> string, n: Node)
    requires Enabled(s, step, names) && !SetsSending(step)
    ensures At(Apply(s, step, names), n).sending == At(s, n).sending
  {
  }

  lemma SendingChanges(s: State, step: Step, names: Key -> string, n: Node)
    requires Enabled(s, step, names)
    ensures var next := At(Apply(s, step, names), n).sending;
            || next == At(s, n).sending || next.None?
            || (&& step.SendReport? && step.node == n && step.file in At(s, n).journal
                 && At(s, n).journal[step.file].Readable?
                && next == Some(Sending(step.file, At(s, n).journal[step.file].result)))
  {
    if !SetsSending(step) {
      hide Apply, Enabled;
      OthersKeepSending(s, step, names, n);
    }
  }

  lemma ReportsChange(s: State, step: Step, names: Key -> string, r: Report)
    requires Enabled(s, step, names) && r in Apply(s, step, names).reports
    ensures || r in s.reports
            || (&& step.SendReport? && step.file in At(s, step.node).journal
                 && At(s, step.node).journal[step.file].Readable?
                && r.result == At(s, step.node).journal[step.file].result)
  {
  }

  lemma SentIsGenuine(s: State, step: Step, names: Key -> string)
    requires Inv(s) && Enabled(s, step, names)
    ensures var s' := Apply(s, step, names);
            && (forall n {:trigger At(s', n).sending} ::
                 At(s', n).sending.Some? ==> At(s', n).sending.value.result in s'.finished)
            && (forall r {:trigger r in s'.reports} :: r in s'.reports ==> r.result in s'.finished)
  {
    var s' := Apply(s, step, names);
    FinishedGrows(s, step, names);
    forall n | At(s', n).sending.Some?
      ensures At(s', n).sending.value.result in s'.finished
    {
      SendingChanges(s, step, names, n);
    }
    forall r | r in s'.reports
      ensures r.result in s'.finished
    {
      ReportsChange(s, step, names, r);
    }
  }

  lemma StepKeepsInv(s: State, step: Step, names: Key -> string)
    requires Inv(s) && Enabled(s, step, names)
    ensures Inv(Apply(s, step, names))
  {
    KeepsPendingIsUntouched(s, step, names);
    KeepsAcceptedOnce(s, step, names);
    KeepsOneLiveCall(s, step, names);
    KeepsPhaseFits(s, step, names);
    KeepsWorkWasAccepted(s, step, names);
    KeepsResultsAreGenuine(s, step, names);
  }

  // ---------- the results ----------

  lemma {:induction false} InvOnRuns(run: seq<State>, steps: seq<Step>, names: Key -> string, i: nat)
    requires IsRun(run, steps, names) && i < |run|
    ensures Inv(run[i])
    decreases i
  {
    if i == 0 {
      InitialInv();
    } else {
      InvOnRuns(run, steps, names, i - 1);
      assert Took(run, steps, i - 1, names);
      StepKeepsInv(run[i - 1], steps[i - 1], names);
    }
  }

  /** In every run an experiment is accepted at most once, by one dispatcher; while its row is
      PENDING it was never accepted, no request for it can be, and nobody runs or reports it. */
  lemma AtMostOnceStart(run: seq<State>, steps: seq<Step>, names: Key -> string, i: nat)
    requires IsRun(run, steps, names) && i < |run|
    ensures forall a, b :: 0 <= a < b < |run[i].accepted| ==> run[i].accepted[a].key != run[i].accepted[b].key
    ensures forall k :: HasStatus(run[i], k, Pending) ==>
              && (forall a :: 0 <= a < |run[i].accepted| ==> run[i].accepted[a].key != k)
              && (forall c :: 0 <= c < |run[i].calls| && run[i].calls[c].key == k ==> !Live(run[i].calls[c]))
              && (forall n :: k !in At(run[i], n).running && k !in At(run[i], n).hand)
              && (forall r :: r in run[i].reports ==> r.result.key != k)
  {
    InvOnRuns(run, steps, names, i);
    forall k | HasStatus(run[i], k, Pending)
      ensures && (forall a :: 0 <= a < |run[i].accepted| ==> run[i].accepted[a].key != k)
              && (forall c :: 0 <= c < |run[i].calls| && run[i].calls[c].key == k ==> !Live(run[i].calls[c]))
              && (forall n :: k !in At(run[i], n).running && k !in At(run[i], n).hand)
              && (forall r :: r in run[i].reports ==> r.result.key != k)
    {
      PendingMeansNothing(run[i], k);
    }
  }

  lemma PendingMeansNothing(s: State, k: Key)
    requires Inv(s) && HasStatus(s, k, Pending)
    ensures Untouched(s, k)
    ensures forall n :: k !in At(s, n).running && k !in At(s, n).hand
    ensures forall r :: r in s.reports ==> r.result.key != k
  {
  }

  /** The steps that write a row: besides a report, only the end of the scheduler's turn ignores the status. */
  lemma RowWritten(s: State, step: Step, names: Key -> string, k: Key)
    requires Enabled(s, step, names) && k in s.db
    ensures var s' := Apply(s, step, names);
            && k in s'.db
            && (|| s'.db[k] == s.db[k]
                || (step.StoreReport? && step.report.result.key == k
                     && s'.db[k] == ResultRow(s.db[k], step.report.node, step.report.result))
                || (s'.db[k].result == s.db[k].result
                    && (!Terminal(s.db[k].status)
                        || (step.Settle? && s.phase.key == k
                             && (s.phase.outcome.Retryable? || s.phase.outcome.Fatal?)))))
  {
  }

  lemma TerminalStays(s: State, step: Step, names: Key -> string, k: Key)
    requires Inv(s) && Enabled(s, step, names) && k in s.db && Terminal(s.db[k].status)
    ensures var s' := Apply(s, step, names);
            && k in s'.db && Terminal(s'.db[k].status)
            && (s'.db[k] != s.db[k] ==> step.StoreReport? && s'.db[k].result == Some(step.report.result))
  {
    RowWritten(s, step, names, k);
    hide Apply;
  }

  /** A terminal row is terminal ever after: only a late report may replace one end by another. */
  lemma {:induction false} TerminalNeverReverts(run: seq<State>, steps: seq<Step>, names: Key -> string, i: nat,
                                                j: nat, k: Key)
    requires IsRun(run, steps, names) && i <= j < |run|
    requires k in run[i].db && Terminal(run[i].db[k].status)
    ensures k in run[j].db && Terminal(run[j].db[k].status)
    decreases j
  {
    if i < j {
      TerminalNeverReverts(run, steps, names, i, j - 1, k);
      InvOnRuns(run, steps, names, j - 1);
      assert Took(run, steps, j - 1, names);
      TerminalStays(run[j - 1], steps[j - 1], names, k);
    }
  }

  // ---------- admission ----------

  /** A start of k was admitted at node n and has not been finished. */
  ghost predicate Unfinished(s: State, n: Node, k: Key) {
    k in At(s, n).running || exists c: nat :: c < |s.calls| && s.calls[c] == Call(k, n, Admitted)
  }

  /** A request that arrives finds its experiment nowhere: neither admitted, running nor finished, on
      this node or any other, and no other request for it can be accepted. */
  lemma ArrivingRequestIsFresh(s: State, c: nat)
    requires Inv(s) && c < |s.calls| && s.calls[c].phase.Sent?
    ensures var k := s.calls[c].key;
            && (forall n :: !Unfinished(s, n, k) && k !in At(s, n).hand)
            && (forall d: nat :: d < |s.calls| && d != c && s.calls[d].key == k ==> !Live(s.calls[d]))
            && (forall r :: r in s.finished ==> r.key != k)
  {
    var k := s.calls[c].key;
    assert Live(s.calls[c]) && !WasAccepted(s, k);
    forall d: nat | d < |s.calls| && d != c && s.calls[d].key == k
      ensures !Live(s.calls[d])
    {
      assert c < d || d < c;
    }
    forall n
      ensures !Unfinished(s, n, k) && k !in At(s, n).hand
    {
      assert k !in At(s, n).running;
      assert forall d: nat :: d < |s.calls| && s.calls[d] == Call(k, n, Admitted) ==> d != c && Live(s.calls[d]);
    }
  }

  /** The same in every run. */
  lemma AdmitsOnlyFreshOnRuns(run: seq<State>, steps: seq<Step>, names: Key -> string, i: nat)
    requires IsRun(run, steps, names) && i < |steps| && steps[i].Admit?
    ensures steps[i].call < |run[i].calls|
    ensures forall n :: !Unfinished(run[i], n, run[i].calls[steps[i].call].key)
  {
    InvOnRuns(run, steps, names, i);
    assert Took(run, steps, i, names);
    ArrivingRequestIsFresh(run[i], steps[i].call);
  }
}
