/** The registry of a dispatcher in the runs of the protocol: what the protocol's steps do to it is a
    history as its callers must keep it, and it lists what is unfinished at that node. */
module DispatcherRuns {
  import opened Options
  import opened Lists
  import opened Protocol
  import opened DispatcherRegistries
  import opened StartSafety
  import opened RegistryRuns

  // ---------- what is unfinished after a step ----------

  /** A start of k was admitted at n and waits for a worker. */
  ghost predicate WaitsForWorker(s: State, n: Node, k: Key) {
    exists c: nat :: c < |s.calls| && s.calls[c] == Call(k, n, Admitted)
  }

  ghost predicate UnfinishedAfter(s: State, step: Step, n: Node, k: Key)
    requires step.Admit? || step.Withdraw? ==> step.call < |s.calls|
  {
    match step
    case Admit(c) => Unfinished(s, n, k) || (s.calls[c].node == n && s.calls[c].key == k)
    case Withdraw(c) => Unfinished(s, n, k) && !(s.calls[c].node == n && s.calls[c].key == k)
    case Complete(l, x, _, _) => Unfinished(s, n, k) && !(l == n && x == k)
    case RestartDispatcher(l) => l != n && Unfinished(s, n, k)
    case _ => Unfinished(s, n, k)
  }

  /** The steps that look at the list of requests only at its end, or not at all. */
  predicate KeepsAdmitted(step: Step) {
    !step.Admit? && !step.HandOver? && !step.Withdraw? && !step.RestartDispatcher?
  }

  lemma OldCallsStay(s: State, step: Step, names: Key -> string, c: nat)
    requires Enabled(s, step, names) && KeepsAdmitted(step)
    ensures var t := Apply(s, step, names);
            && |s.calls| <= |t.calls|
            && (c < |s.calls| ==>
                   (s.calls[c].phase.Admitted? || t.calls[c].phase.Admitted? ==> t.calls[c] == s.calls[c]))
            && (|s.calls| <= c < |t.calls| ==> !t.calls[c].phase.Admitted?)
  {
  }

  lemma WaitingStays(s: State, step: Step, names: Key -> string, n: Node, k: Key)
    requires Enabled(s, step, names) && KeepsAdmitted(step)
    ensures WaitsForWorker(Apply(s, step, names), n, k) <==> WaitsForWorker(s, n, k)
  {
    var t := Apply(s, step, names);
    forall c: nat
      ensures c < |t.calls| && t.calls[c] == Call(k, n, Admitted) <==>
              c < |s.calls| && s.calls[c] == Call(k, n, Admitted)
    {
      OldCallsStay(s, step, names, c);
    }
  }

  lemma WaitingChanges(s: State, t: State, c: nat, phase: CallPhase, n: Node, k: Key)
    requires c < |s.calls| && t.calls == s.calls[c := s.calls[c].(phase := phase)]
    requires s.calls[c].phase.Admitted? != phase.Admitted?
    requires forall d: nat :: d < |s.calls| && d != c && s.calls[d].phase.Admitted? ==> s.calls[d].key != s.calls[c].key
    ensures WaitsForWorker(t, n, k) <==>
            if s.calls[c].key == k && s.calls[c].node == n then phase.Admitted? else WaitsForWorker(s, n, k)
  {
    if s.calls[c].key == k && s.calls[c].node == n {
      assert phase.Admitted? ==> t.calls[c] == Call(k, n, Admitted);
    } else {
      assert forall d: nat ::
        d < |s.calls| ==> (t.calls[d] == Call(k, n, Admitted) <==> s.calls[d] == Call(k, n, Admitted));
    }
  }

  lemma RestartDropsWaiting(s: State, t: State, l: Node, n: Node, k: Key)
    requires |t.calls| == |s.calls| && forall c: nat :: c < |s.calls| ==> t.calls[c] == AfterRestart(s.calls[c], l)
    ensures WaitsForWorker(t, n, k) <==> l != n && WaitsForWorker(s, n, k)
  {
    assert forall c: nat :: c < |s.calls| ==>
             (t.calls[c] == Call(k, n, Admitted) <==> l != n && s.calls[c] == Call(k, n, Admitted));
  }

  /** Requests for one experiment are admitted one at a time, and none once a worker had it. */
  lemma OneAdmitted(s: State, c: nat)
    requires Inv(s) && c < |s.calls| && Live(s.calls[c])
    ensures forall d: nat :: d < |s.calls| && d != c && s.calls[d].phase.Admitted? ==> s.calls[d].key != s.calls[c].key
    ensures forall n {:trigger At(s, n)} :: s.calls[c].key !in At(s, n).running
  {
    forall d: nat | d < |s.calls| && d != c && s.calls[d].phase.Admitted?
      ensures s.calls[d].key != s.calls[c].key
    {
      assert Live(s.calls[d]) && (c < d || d < c);
    }
  }

  lemma RunningIsNotAdmitted(s: State, n: Node, l: Node, k: Key)
    requires Inv(s) && k in At(s, n).running
    ensures !WaitsForWorker(s, l, k)
  {
    assert WasAccepted(s, k);
    assert forall c: nat :: c < |s.calls| && s.calls[c].phase.Admitted? ==> Live(s.calls[c]);
  }

  lemma RunningAfter(s: State, step: Step, names: Key -> string, n: Node, k: Key)
    requires Enabled(s, step, names)
    ensures k in At(Apply(s, step, names), n).running <==>
            match step
            case HandOver(c) => k in At(s, n).running || (s.calls[c].node == n && s.calls[c].key == k)
            case Complete(l, x, _, _) => k in At(s, n).running && !(l == n && x == k)
            case RestartDispatcher(l) => l != n && k in At(s, n).running
            case _ => k in At(s, n).running
  {
    if AwayFromDispatchers(step) {
      hide Apply, Enabled;
      DispatchersStay(s, step, names);
    }
  }

  lemma CallsOf(s: State, step: Step, names: Key -> string)
    requires Enabled(s, step, names)
    ensures var t := Apply(s, step, names);
            match step
            case Admit(c) => t.calls == s.calls[c := s.calls[c].(phase := Admitted)]
            case HandOver(c) => t.calls == s.calls[c := s.calls[c].(phase := Answered(Accepted))]
            case Withdraw(c) => t.calls == s.calls[c := s.calls[c].(phase := Answered(Rejected(RequestCanceled)))]
            case RestartDispatcher(l) =>
              |t.calls| == |s.calls| && forall c: nat :: c < |s.calls| ==> t.calls[c] == AfterRestart(s.calls[c], l)
            case _ => true
  {
  }

  lemma CallOf(s: State, step: Step, names: Key -> string)
    requires Enabled(s, step, names) && (step.Admit? || step.HandOver? || step.Withdraw?)
    ensures step.call < |s.calls| && Live(s.calls[step.call])
    ensures s.calls[step.call].phase.Admitted? <==> !step.Admit?
  {
  }

  lemma UnfinishedAfterStep(s: State, step: Step, names: Key -> string, n: Node, k: Key)
    requires Inv(s) && Enabled(s, step, names)
    ensures step.Admit? || step.Withdraw? ==> step.call < |s.calls|
    ensures Unfinished(Apply(s, step, names), n, k) <==> UnfinishedAfter(s, step, n, k)
  {
    var t := Apply(s, step, names);
    RunningAfter(s, step, names, n, k);
    CallsOf(s, step, names);
    hide Apply, Inv;
    if step.Admit? || step.HandOver? || step.Withdraw? {
      CallOf(s, step, names);
      OneAdmitted(s, step.call);
      WaitingChanges(s, t, step.call, t.calls[step.call].phase, n, k);
    } else if step.RestartDispatcher? {
      RestartDropsWaiting(s, t, step.node, n, k);
    } else {
      WaitingStays(s, step, names, n, k);
      if step.Complete? {
        assert step.key in At(s, step.node).running;
        RunningIsNotAdmitted(s, step.node, n, step.key);
      }
    }
  }

  // ---------- what the registry is asked ----------

  /** The memory an experiment asks for, and the reasons given to Finish and CancelAll. */
  datatype Given = Given(memory: Key -> nat, reason: Step -> string)

  /** The call of a registry method that the step makes at node n. */
  function OpOf(s: State, step: Step, n: Node, given: Given): Option<Op>
    requires step.Admit? || step.Refuse? || step.Withdraw? ==> step.call < |s.calls|
  {
    match step
    case Admit(c) => if s.calls[c].node == n then Some(StartOf(s, c, given)) else None
    case Refuse(c, code) => if s.calls[c].node == n && !code.BadRequest? then Some(StartOf(s, c, given)) else None
    case Withdraw(c) =>
      if s.calls[c].node == n then Some(Finish(s.calls[c].key, Outcome(Failed, given.reason(step)))) else None
    case BeginRun(l, k) => if l == n then Some(SetStatus(k, Running)) else None
    case CancelActive(l, k) => if l == n then Some(Cancel(k)) else None
    case CancelAll(l) => if l == n then Some(Op.CancelAll(given.reason(step))) else None
    case Complete(l, k, st, _) => if l == n then Some(Finish(k, Outcome(st, given.reason(step)))) else None
    case _ => None
  }

  function StartOf(s: State, c: nat, given: Given): Op
    requires c < |s.calls|
  {
    TryStart(s.calls[c].key, given.memory(s.calls[c].key))
  }

  /** Short of 64-bit overflow, the registry admits what the step admits and refuses what it refuses. */
  predicate AnswersAs(a: Account, s: State, step: Step, n: Node, given: Given)
    requires step.Admit? || step.Refuse? || step.Withdraw? ==> step.call < |s.calls|
  {
    match OpOf(s, step, n, given)
    case Some(TryStart(k, memory)) =>
      && a.registry.reservedMemory + memory < U64 && |a.live| + 1 < U64
      && StartRefusal(a.registry, k, memory) == (if step.Refuse? then Some(step.code) else None)
    case _ => true
  }

  /** With limits on slots and memory, and requests below 2^63, nothing overflows. */
  lemma LimitsPreventOverflow(a: Account, memory: nat)
    requires Accounted(a.registry, a.live) && memory < U64 / 2
    requires 0 < a.registry.totalSlots < U64 - 1 && 0 < a.registry.totalMemory <= U64 / 2
    ensures a.registry.reservedMemory + memory < U64 && |a.live| + 1 < U64
  {
  }

  /** b is the account after the step; a restarted dispatcher begins with an empty registry. */
  ghost predicate Keeps(a: Account, s: State, step: Step, n: Node, given: Given, b: Account)
    requires step.Admit? || step.Refuse? || step.Withdraw? ==> step.call < |s.calls|
  {
    if step == RestartDispatcher(n) then b == Empty(a.registry.totalSlots, a.registry.totalMemory)
    else
      match OpOf(s, step, n, given)
      case Some(op) => Disciplined(a, op) ==> b == Next(a, op)
      case None => b == a
  }

  // ---------- the protocol's registry is the dispatcher's ----------

  /** What the protocol looks at. */
  function Shown(experiments: map<Key, Record>): map<Key, Entry> {
    map k | k in experiments :: Entry(experiments[k].outcome.status, experiments[k].cancelRequested)
  }

  ghost predicate Agrees(a: Account, s: State, n: Node) {
    && Accounted(a.registry, a.live)
    && Shown(a.registry.experiments) == At(s, n).registry
    && (forall k {:trigger Unfinished(s, n, k)} :: k in a.live <==> Unfinished(s, n, k))
  }

  /** Every call of the registry is as its callers must make it: no start of what is unfinished there,
      and no status and no Finish but of what is. */
  lemma StepIsDisciplined(a: Account, s: State, step: Step, names: Key -> string, n: Node, given: Given)
    requires Inv(s) && Enabled(s, step, names) && Agrees(a, s, n)
    requires AnswersAs(a, s, step, n, given)
    ensures OpOf(s, step, n, given).Some? ==> Disciplined(a, OpOf(s, step, n, given).value)
  {
    match step
    case Admit(c) =>
      if s.calls[c].node == n {
        RequestsAreDisciplined(s, c, a, given.memory(s.calls[c].key));
      }
    case Refuse(c, code) =>
      if s.calls[c].node == n && !code.BadRequest? {
        RequestsAreDisciplined(s, c, a, given.memory(s.calls[c].key));
      }
    case Withdraw(c) =>
      assert s.calls[c] == Call(s.calls[c].key, s.calls[c].node, Admitted);
      assert Unfinished(s, s.calls[c].node, s.calls[c].key);
    case BeginRun(l, k) => assert Unfinished(s, l, k);
    case Complete(l, k, _, _) => assert Unfinished(s, l, k);
    case _ =>
  }

  lemma RegistryStays(s: State, step: Step, names: Key -> string, n: Node, given: Given)
    requires Enabled(s, step, names) && step != RestartDispatcher(n)
    requires (step.Admit? || step.Refuse? || step.Withdraw? ==> step.call < |s.calls|)
    requires OpOf(s, step, n, given).None?
    ensures At(Apply(s, step, names), n).registry == At(s, n).registry
  {
    if AwayFromDispatchers(step) {
      hide Apply, Enabled;
      DispatchersStay(s, step, names);
    }
  }

  /** What a call does to the entries; admitted tells whether a start went through. */
  function EntriesAfter(entries: map<Key, Entry>, op: Op, admitted: bool): map<Key, Entry> {
    match op
    case TryStart(k, _) => if admitted then entries[k := Entry(Starting, false)] else entries
    case SetStatus(k, st) => if k in entries then entries[k := entries[k].(status := st)] else entries
    case Cancel(k) => if k in entries then entries[k := CanceledEntry(entries[k])] else entries
    case CancelAll(_) => map k | k in entries :: CanceledEntry(entries[k])
    case Finish(k, o) =>
      var requested := k in entries && entries[k].cancelRequested;
      entries[k := Entry(if requested && !o.status.Finished? then Canceled else o.status, requested)]
  }

  lemma StepChangesEntries(s: State, step: Step, names: Key -> string, n: Node, given: Given)
    requires Enabled(s, step, names)
    requires step.Admit? || step.Refuse? || step.Withdraw? ==> step.call < |s.calls|
    requires OpOf(s, step, n, given).Some?
    ensures At(Apply(s, step, names), n).registry ==
            EntriesAfter(At(s, n).registry, OpOf(s, step, n, given).value, step.Admit?)
  {
    if step.Refuse? {
      hide Apply, Enabled;
      DispatchersStay(s, step, names);
    }
  }

  lemma CallChangesEntries(a: Account, op: Op)
    requires Disciplined(a, op)
    ensures Shown(Next(a, op).registry.experiments) ==
            EntriesAfter(Shown(a.registry.experiments), op,
                         op.TryStart? && StartRefusal(a.registry, op.key, op.memory).None?)
  {
  }

  lemma StepShows(a: Account, s: State, step: Step, names: Key -> string, n: Node, given: Given, b: Account)
    requires Enabled(s, step, names) && Shown(a.registry.experiments) == At(s, n).registry
    requires AnswersAs(a, s, step, n, given) && Keeps(a, s, step, n, given, b)
    requires OpOf(s, step, n, given).Some? ==> Disciplined(a, OpOf(s, step, n, given).value)
    ensures Shown(b.registry.experiments) == At(Apply(s, step, names), n).registry
  {
    if step == RestartDispatcher(n) {
      assert At(Apply(s, step, names), n).registry == map[];
    } else {
      hide Apply, Enabled, Shown, EntriesAfter, Disciplined, Next;
      if OpOf(s, step, n, given).None? {
        RegistryStays(s, step, names, n, given);
      } else {
        StepChangesEntries(s, step, names, n, given);
        CallChangesEntries(a, OpOf(s, step, n, given).value);
      }
    }
  }

  lemma LiveAfter(a: Account, op: Op, k: Key)
    requires Accounted(a.registry, a.live) && Disciplined(a, op)
    ensures k in Next(a, op).live <==>
            match op
            case TryStart(x, memory) => k in a.live || (x == k && StartRefusal(a.registry, x, memory).None?)
            case Finish(x, _) => k in a.live && k != x
            case _ => k in a.live
  {
    if op.Finish? {
      RestOfLive(a.live, IndexOf(a.live, op.key));
    }
  }

  lemma StepLists(a: Account, s: State, step: Step, names: Key -> string, n: Node, given: Given, b: Account, k: Key)
    requires Inv(s) && Enabled(s, step, names) && Agrees(a, s, n)
    requires AnswersAs(a, s, step, n, given) && Keeps(a, s, step, n, given, b)
    requires OpOf(s, step, n, given).Some? ==> Disciplined(a, OpOf(s, step, n, given).value)
    ensures k in b.live <==> Unfinished(Apply(s, step, names), n, k)
  {
    UnfinishedAfterStep(s, step, names, n, k);
    hide Inv, Apply, Enabled, Accounted, Next, Disciplined, Unfinished;
    if OpOf(s, step, n, given).Some? {
      LiveAfter(a, OpOf(s, step, n, given).value, k);
    }
  }

  /** The registry goes on agreeing with the protocol, and its sums with what it lists. */
  lemma StepAgrees(a: Account, s: State, step: Step, names: Key -> string, n: Node, given: Given, b: Account)
    requires Inv(s) && Enabled(s, step, names) && Agrees(a, s, n)
    requires AnswersAs(a, s, step, n, given) && Keeps(a, s, step, n, given, b)
    ensures OpOf(s, step, n, given).Some? ==> Disciplined(a, OpOf(s, step, n, given).value)
    ensures Agrees(b, Apply(s, step, names), n)
  {
    StepIsDisciplined(a, s, step, names, n, given);
    StepShows(a, s, step, names, n, given, b);
    forall k
      ensures k in b.live <==> Unfinished(Apply(s, step, names), n, k)
    {
      StepLists(a, s, step, names, n, given, b, k);
    }
    if OpOf(s, step, n, given).Some? {
      OpKeepsAccount(a, OpOf(s, step, n, given).value);
    }
  }

  // ---------- runs ----------

  /** accounts[i] is the account of node n at boundary i of the run. */
  ghost predicate KeptAlong(run: seq<State>, steps: seq<Step>, n: Node, given: Given, accounts: seq<Account>)
    requires |run| == |steps| + 1
  {
    && |accounts| == |run|
    && accounts[0] == Empty(accounts[0].registry.totalSlots, accounts[0].registry.totalMemory)
    && forall i: nat {:trigger steps[i]} :: i < |steps| ==>
         && (steps[i].Admit? || steps[i].Refuse? || steps[i].Withdraw? ==> steps[i].call < |run[i].calls|)
         && AnswersAs(accounts[i], run[i], steps[i], n, given)
         && Keeps(accounts[i], run[i], steps[i], n, given, accounts[i + 1])
  }

  lemma NothingUnfinished(n: Node, a: Account)
    requires a == Empty(a.registry.totalSlots, a.registry.totalMemory)
    ensures Agrees(a, INITIAL, n)
  {
  }

  /** At every boundary of every run the registry of node n shows what the protocol has there, lists
      exactly what is unfinished there, and holds the slots and the memory of exactly that. */
  lemma {:induction false} RegistryOnRuns(run: seq<State>, steps: seq<Step>, names: Key -> string, n: Node,
                                          given: Given, accounts: seq<Account>, i: nat)
    requires IsRun(run, steps, names) && KeptAlong(run, steps, n, given, accounts) && i < |run|
    ensures Agrees(accounts[i], run[i], n)
    decreases i
  {
    if i == 0 {
      NothingUnfinished(n, accounts[0]);
    } else {
      RegistryOnRuns(run, steps, names, n, given, accounts, i - 1);
      InvOnRuns(run, steps, names, i - 1);
      assert Took(run, steps, i - 1, names);
      hide Inv, Apply, Enabled, Agrees, AnswersAs, Keeps;
      assert steps[i - 1] == steps[i - 1];
      StepAgrees(accounts[i - 1], run[i - 1], steps[i - 1], names, n, given, accounts[i]);
    }
  }

  /** The calls that reach the registry since its dispatcher last started form a disciplined history. */
  lemma {:induction false} CallsAreDisciplined(run: seq<State>, steps: seq<Step>, names: Key -> string, n: Node,
                                               given: Given, accounts: seq<Account>, i: nat)
    returns (history: seq<Account>, ops: seq<Op>)
    requires IsRun(run, steps, names) && KeptAlong(run, steps, n, given, accounts) && i < |run|
    ensures IsHistory(history, ops) && history[|ops|] == accounts[i]
    ensures i < |steps| && OpOf(run[i], steps[i], n, given).Some? ==>
              Disciplined(accounts[i], OpOf(run[i], steps[i], n, given).value)
    decreases i
  {
    RegistryOnRuns(run, steps, names, n, given, accounts, i);
    if i < |steps| {
      InvOnRuns(run, steps, names, i);
      assert Took(run, steps, i, names);
      StepIsDisciplined(accounts[i], run[i], steps[i], names, n, given);
    }
    hide Inv, Apply, Enabled, Agrees, AnswersAs, Disciplined, Next;
    if i == 0 || steps[i - 1] == RestartDispatcher(n) {
      history, ops := [accounts[i]], [];
    } else {
      history, ops := CallsAreDisciplined(run, steps, names, n, given, accounts, i - 1);
      var op := OpOf(run[i - 1], steps[i - 1], n, given);
      if op.Some? {
        HistoryGrows(history, ops, op.value, accounts[i]);
        history, ops := history + [accounts[i]], ops + [op.value];
      }
    }
  }

  lemma HistoryGrows(history: seq<Account>, ops: seq<Op>, op: Op, b: Account)
    requires IsHistory(history, ops) && Leads(history[|ops|], op, b)
    ensures IsHistory(history + [b], ops + [op])
  {
    var longer, more := history + [b], ops + [op];
    hide Leads;
    forall i: nat | i < |more|
      ensures Leads(longer[i], more[i], longer[i + 1])
    {
      if i < |ops| {
        assert Leads(history[i], ops[i], history[i + 1]);
      }
    }
  }

  // ---------- the answer that never comes ----------

  predicate IsActive(s: State, n: Node, k: Key) {
    k in At(s, n).registry && Active(At(s, n).registry[k].status)
  }

  lemma ActiveAfter(s: State, step: Step, names: Key -> string, n: Node, k: Key)
    requires Enabled(s, step, names) && IsActive(Apply(s, step, names), n, k)
    ensures match step
            case Admit(c) => IsActive(s, n, k) || (s.calls[c].node == n && s.calls[c].key == k)
            case BeginRun(l, x) => IsActive(s, n, k) || (l == n && x == k)
            case Withdraw(c) => IsActive(s, n, k) && !(s.calls[c].node == n && s.calls[c].key == k)
            case Complete(l, x, _, _) => IsActive(s, n, k) && !(l == n && x == k)
            case RestartDispatcher(l) => l != n && IsActive(s, n, k)
            case _ => IsActive(s, n, k)
  {
    if AwayFromDispatchers(step) {
      hide Apply, Enabled;
      DispatchersStay(s, step, names);
    }
  }

  ghost predicate ActiveIsUnfinished(s: State) {
    forall n, k {:trigger IsActive(s, n, k)} :: IsActive(s, n, k) ==> Unfinished(s, n, k)
  }

  lemma KeepsActiveUnfinished(s: State, step: Step, names: Key -> string)
    requires Inv(s) && Enabled(s, step, names) && ActiveIsUnfinished(s)
    ensures ActiveIsUnfinished(Apply(s, step, names))
  {
    var t := Apply(s, step, names);
    forall n, k | IsActive(t, n, k)
      ensures Unfinished(t, n, k)
    {
      ActiveAfter(s, step, names, n, k);
      UnfinishedAfterStep(s, step, names, n, k);
    }
  }

  /** No request was answered with AlreadyRunning, and the scheduler decided on no such answer. */
  predicate NoneAlreadyRunning(s: State) {
    && (forall c: nat :: c < |s.calls| ==> s.calls[c].phase != Answered(Rejected(AlreadyRunning)))
    && (s.phase.Decided? ==> !s.phase.outcome.OutcomeAlreadyRunning?)
  }

  lemma KeepsNoneAlreadyRunning(s: State, step: Step, names: Key -> string)
    requires Enabled(s, step, names) && NoneAlreadyRunning(s) && !(step.Refuse? && step.code.AlreadyRunning?)
    ensures NoneAlreadyRunning(Apply(s, step, names))
  {
  }

  lemma ArrivingIsNotActive(s: State, c: nat)
    requires Inv(s) && ActiveIsUnfinished(s) && c < |s.calls| && s.calls[c].phase.Sent?
    ensures !HasActive(s, c)
  {
    ArrivingRequestIsFresh(s, c);
    assert IsActive(s, s.calls[c].node, s.calls[c].key) == HasActive(s, c);
  }

  /** In no run does a dispatcher answer that the experiment is already running, so the scheduler's
      branch for that outcome is never taken. */
  lemma {:induction false} NeverAlreadyRunning(run: seq<State>, steps: seq<Step>, names: Key -> string, i: nat)
    requires IsRun(run, steps, names) && i < |run|
    ensures ActiveIsUnfinished(run[i]) && NoneAlreadyRunning(run[i])
    ensures i < |steps| && steps[i].Refuse? ==> !steps[i].code.AlreadyRunning?
    decreases i
  {
    if i > 0 {
      NeverAlreadyRunning(run, steps, names, i - 1);
      InvOnRuns(run, steps, names, i - 1);
      assert Took(run, steps, i - 1, names);
      KeepsActiveUnfinished(run[i - 1], steps[i - 1], names);
      KeepsNoneAlreadyRunning(run[i - 1], steps[i - 1], names);
    }
    if i < |steps| && steps[i].Refuse? {
      InvOnRuns(run, steps, names, i);
      assert Took(run, steps, i, names);
      ArrivingIsNotActive(run[i], steps[i].call);
    }
  }
}
