/** The experiment scheduling protocol: database rows, the scheduler goroutine of the control plane,
    start requests on an unreliable network, dispatchers with their workers and journals, and
    result reports. Everything that the code does in one atomic action is one step. */
module Protocol {
  import opened Options

  datatype Key = Key(modelHash: string, experimentId: string)

  type Node = string

  datatype Status = Pending | Starting | Running | Finished | Failed | Canceled

  predicate Terminal(st: Status) {
    st.Finished? || st.Failed? || st.Canceled?
  }

  /** isActiveStatus of the dispatcher. */
  predicate Active(st: Status) {
    !Terminal(st)
  }

  /** A final result; the payload stands for metrics, artifact and all other reported fields. */
  datatype Result = Result(key: Key, status: Status, payload: int)

  datatype Row = Row(status: Status, node: Option<Node>, result: Option<Result>)

  // ---------- start requests ----------

  datatype Code = NoFreeSlots | NotEnoughMemory | RequestCanceled | AlreadyRunning | BadRequest

  datatype Response = Accepted | Rejected(code: Code)

  datatype StartOutcome = OutcomeAccepted | Retryable | Fatal | OutcomeAlreadyRunning | Ambiguous

  /** How startExperimentOnNode classifies an answer; no answer at all is Ambiguous. */
  function OutcomeOf(r: Response): StartOutcome {
    match r
    case Accepted => OutcomeAccepted
    case Rejected(AlreadyRunning) => OutcomeAlreadyRunning
    case Rejected(NoFreeSlots) => Retryable
    case Rejected(NotEnoughMemory) => Retryable
    case Rejected(RequestCanceled) => Retryable
    case Rejected(BadRequest) => Fatal
  }

  /** A request is under way, admitted to the registry and waiting for a worker, answered, or past. */
  datatype CallPhase = Sent | Admitted | Answered(response: Response) | Past

  datatype Call = Call(key: Key, node: Node, phase: CallPhase)

  // ---------- actors ----------

  /** Where RunOnce stands with the record it is working on. */
  datatype Phase =
    | Idle
    | Marked(key: Key, node: Node)
    | Waiting(key: Key, call: nat)
    | Decided(key: Key, node: Node, outcome: StartOutcome)

  datatype Entry = Entry(status: Status, cancelRequested: bool)

  datatype JournalFile = Readable(result: Result) | Corrupt

  /** hand holds results between Finish and persist; sending is what flushOne has read and sent. */
  datatype Dispatcher = Dispatcher(
    registry: map<Key, Entry>, running: set<Key>, hand: map<Key, Result>,
    journal: map<string, JournalFile>, sending: Option<Sending>)

  datatype Sending = Sending(file: string, result: Result)

  const FRESH_DISPATCHER := Dispatcher(map[], {}, map[], map[], None)

  datatype Acceptance = Acceptance(key: Key, node: Node)

  datatype Report = Report(node: Node, result: Result)

  /** accepted logs every task handed to a worker; finished and lost are the results that ever came
      into being and those that a crash, a full disk or a damaged file destroyed. */
  datatype State = State(
    db: map<Key, Row>, phase: Phase, calls: seq<Call>, dispatchers: map<Node, Dispatcher>,
    reports: set<Report>, acks: set<Report>,
    accepted: seq<Acceptance>, finished: set<Result>, lost: set<Result>)

  const INITIAL := State(map[], Idle, [], map[], {}, {}, [], {}, {})

  function At(s: State, n: Node): Dispatcher {
    if n in s.dispatchers then s.dispatchers[n] else FRESH_DISPATCHER
  }

  function SetAt(s: State, n: Node, d: Dispatcher): State {
    s.(dispatchers := s.dispatchers[n := d])
  }

  function SetRow(s: State, k: Key, row: Row): State {
    s.(db := s.db[k := row])
  }

  function SetCall(s: State, c: nat, phase: CallPhase): State
    requires c < |s.calls|
  {
    s.(calls := s.calls[c := s.calls[c].(phase := phase)])
  }

  // ---------- row updates (one SQL statement each) ----------

  /** TryMarkExperimentStarting, where its guard holds. */
  function StartingRow(row: Row, n: Node): Row {
    row.(status := Starting, node := Some(n))
  }

  /** MarkExperimentPending: no guard. */
  function PendingRow(row: Row): Row {
    row.(status := Pending, node := None)
  }

  /** MarkExperimentFailedToStart: no guard. */
  function FailedToStartRow(row: Row, n: Node): Row {
    row.(status := Failed, node := Some(n))
  }

  /** UpdateExperimentResult: no guard, every result column is written. */
  function ResultRow(row: Row, n: Node, r: Result): Row {
    Row(r.status, Some(n), Some(r))
  }

  // ---------- steps ----------

  datatype Step =
    // control plane: database and scheduler
    | Submit(key: Key)
    | MarkStarting(key: Key, node: Node)
    | MarkStartingFails(key: Key, node: Node, applied: bool)
    | SendStart
    | SendFails
    | Receive
    | GiveUp
    | Settle(applied: bool)
    | CancelPending(key: Key)
    | Reconcile(key: Key)
    | RestartControlPlane
    // network and dispatcher: start requests
    | Refuse(call: nat, code: Code)
    | Admit(call: nat)
    | HandOver(call: nat)
    | Withdraw(call: nat)
    | Lose(call: nat)
    // dispatcher: execution
    | BeginRun(node: Node, key: Key)
    | CancelActive(node: Node, key: Key)
    | CancelAll(node: Node)
    | Complete(node: Node, key: Key, status: Status, payload: int)
    | RestartDispatcher(node: Node)
    // result delivery
    | Persist(node: Node, key: Key)
    | PersistFails(node: Node, key: Key)
    | Damage(node: Node, file: string)
    | SendReport(node: Node, file: string)
    | StoreReport(report: Report, acknowledged: bool)
    | Acknowledge(node: Node)
    | ReportFails(node: Node)
    | DropCorrupt(node: Node, file: string)

  /** What Finish records: a cancel request wins unless the model had finished. */
  function FinishedEntry(d: Dispatcher, k: Key, st: Status): Entry {
    var requested := k in d.registry && d.registry[k].cancelRequested;
    Entry(if requested && !st.Finished? then Canceled else st, requested)
  }

  function CanceledEntry(e: Entry): Entry {
    if Active(e.status) then Entry(Canceled, true) else e
  }

  predicate Enabled(s: State, step: Step, names: Key -> string) {
    match step
    case Submit(k) => k !in s.db
    case MarkStarting(k, n) => s.phase.Idle? && k in s.db && s.db[k].status.Pending?
    case MarkStartingFails(k, n, applied) => s.phase.Idle? && (applied ==> k in s.db && s.db[k].status.Pending?)
    case SendStart => s.phase.Marked?
    case SendFails => s.phase.Marked?
    case Receive => s.phase.Waiting? && s.phase.call < |s.calls| && s.calls[s.phase.call].phase.Answered?
    case GiveUp => s.phase.Waiting? && s.phase.call < |s.calls|
    case Settle(applied) => s.phase.Decided? && s.phase.key in s.db
    case CancelPending(k) => k in s.db && s.db[k].status.Pending?
    case Reconcile(k) => s.phase.Idle? && k in s.db && (s.db[k].status.Starting? || s.db[k].status.Running?)
      && s.db[k].node.Some?
    case RestartControlPlane => true
    case Refuse(c, code) => c < |s.calls| && s.calls[c].phase.Sent? && (code.AlreadyRunning? <==> HasActive(s, c))
      && !code.RequestCanceled?
    case Admit(c) => c < |s.calls| && s.calls[c].phase.Sent? && !HasActive(s, c)
    case HandOver(c) => c < |s.calls| && s.calls[c].phase.Admitted?
    case Withdraw(c) => c < |s.calls| && s.calls[c].phase.Admitted?
    case Lose(c) => c < |s.calls| && !s.calls[c].phase.Admitted?
    case BeginRun(n, k) => k in At(s, n).running
    case CancelActive(n, k) => k in At(s, n).registry
    case CancelAll(n) => true
    case Complete(n, k, st, payload) => k in At(s, n).running && Terminal(st)
    case RestartDispatcher(n) => true
    case Persist(n, k) => k in At(s, n).hand
    case PersistFails(n, k) => k in At(s, n).hand
    case Damage(n, f) => f in At(s, n).journal
    case SendReport(n, f) => f in At(s, n).journal && At(s, n).journal[f].Readable? && At(s, n).sending.None?
    case StoreReport(r, acknowledged) => r in s.reports && r.result.key in s.db
    case Acknowledge(n) => At(s, n).sending.Some? && Report(n, At(s, n).sending.value.result) in s.acks
    case ReportFails(n) => At(s, n).sending.Some?
    case DropCorrupt(n, f) => f in At(s, n).journal && At(s, n).journal[f].Corrupt?
  }

  /** TryStart's first test: the registry has the experiment and it is active. */
  predicate HasActive(s: State, c: nat)
    requires c < |s.calls|
  {
    var call := s.calls[c];
    call.key in At(s, call.node).registry && Active(At(s, call.node).registry[call.key].status)
  }

  function Apply(s: State, step: Step, names: Key -> string): State
    requires Enabled(s, step, names)
  {
    match step
    case Submit(k) => SetRow(s, k, Row(Pending, None, None))
    case MarkStarting(k, n) => SetRow(s, k, StartingRow(s.db[k], n)).(phase := Marked(k, n))
    case MarkStartingFails(k, n, applied) => if applied then SetRow(s, k, StartingRow(s.db[k], n)) else s
    case SendStart => s.(calls := s.calls + [Call(s.phase.key, s.phase.node, Sent)],
      phase := Waiting(s.phase.key, |s.calls|))
    case SendFails => s.(phase := Decided(s.phase.key, s.phase.node, Ambiguous))
    case Receive =>
      var c := s.phase.call;
      SetCall(s, c, Past).(phase := Decided(s.phase.key, s.calls[c].node, OutcomeOf(s.calls[c].phase.response)))
    case GiveUp => s.(phase := Decided(s.phase.key, s.calls[s.phase.call].node, Ambiguous))
    case Settle(applied) => Settled(s, applied)
    case CancelPending(k) => SetRow(s, k, s.db[k].(status := Canceled))
    case Reconcile(k) => SetRow(s, k, s.db[k].(status := Failed))
    case RestartControlPlane => s.(phase := Idle)
    case Refuse(c, code) => SetCall(s, c, Answered(Rejected(code)))
    case Admit(c) =>
      var call := s.calls[c];
      var d := At(s, call.node);
      SetCall(SetAt(s, call.node, d.(registry := d.registry[call.key := Entry(Starting, false)])), c, Admitted)
    case HandOver(c) =>
      var call := s.calls[c];
      var d := At(s, call.node);
      SetCall(SetAt(s, call.node, d.(running := d.running + {call.key})), c, Answered(Accepted))
        .(accepted := s.accepted + [Acceptance(call.key, call.node)])
    case Withdraw(c) =>
      var call := s.calls[c];
      var d := At(s, call.node);
      SetCall(SetAt(s, call.node, d.(registry := d.registry[call.key := FinishedEntry(d, call.key, Failed)])), c,
        Answered(Rejected(RequestCanceled)))
    case Lose(c) => SetCall(s, c, Past)
    case BeginRun(n, k) =>
      var d := At(s, n);
      if k in d.registry then SetAt(s, n, d.(registry := d.registry[k := d.registry[k].(status := Running)])) else s
    case CancelActive(n, k) =>
      var d := At(s, n);
      SetAt(s, n, d.(registry := d.registry[k := CanceledEntry(d.registry[k])]))
    case CancelAll(n) =>
      var d := At(s, n);
      SetAt(s, n, d.(registry := map k | k in d.registry :: CanceledEntry(d.registry[k])))
    case Complete(n, k, st, payload) =>
      var d := At(s, n);
      var entry := FinishedEntry(d, k, st);
      var r := Result(k, entry.status, payload);
      SetAt(s, n, d.(running := d.running - {k}, registry := d.registry[k := entry], hand := d.hand[k := r]))
        .(finished := s.finished + {r})
    case RestartDispatcher(n) =>
      var d := At(s, n);
      SetAt(s, n, FRESH_DISPATCHER.(journal := d.journal))
        .(calls := seq(|s.calls|, (c: nat) requires c < |s.calls| => AfterRestart(s.calls[c], n)),
          lost := s.lost + d.hand.Values)
    case Persist(n, k) =>
      var d := At(s, n);
      SetAt(s, n, d.(hand := d.hand - {k}, journal := d.journal[names(k) := Readable(d.hand[k])]))
    case PersistFails(n, k) =>
      var d := At(s, n);
      SetAt(s, n, d.(hand := d.hand - {k})).(lost := s.lost + {d.hand[k]})
    case Damage(n, f) =>
      var d := At(s, n);
      var gone := if d.journal[f].Readable? then {d.journal[f].result} else {};
      SetAt(s, n, d.(journal := d.journal[f := Corrupt])).(lost := s.lost + gone)
    case SendReport(n, f) =>
      var d := At(s, n);
      var r := d.journal[f].result;
      SetAt(s, n, d.(sending := Some(Sending(f, r)))).(reports := s.reports + {Report(n, r)})
    case StoreReport(r, acknowledged) =>
      SetRow(s, r.result.key, ResultRow(s.db[r.result.key], r.node, r.result))
        .(acks := if acknowledged then s.acks + {r} else s.acks)
    case Acknowledge(n) =>
      var d := At(s, n);
      SetAt(s, n, d.(journal := d.journal - {d.sending.value.file}, sending := None))
    case ReportFails(n) => SetAt(s, n, At(s, n).(sending := None))
    case DropCorrupt(n, f) => SetAt(s, n, At(s, n).(journal := At(s, n).journal - {f}))
  }

  /** A request that was waiting for a worker dies with its dispatcher. */
  function AfterRestart(call: Call, n: Node): Call {
    if call.node == n && call.phase.Admitted? then call.(phase := Past) else call
  }

  /** The end of RunOnce's turn with a record: the row is written only for a rejected request. */
  function Settled(s: State, applied: bool): State
    requires s.phase.Decided? && s.phase.key in s.db
  {
    var k := s.phase.key;
    var idle := s.(phase := Idle);
    if !applied then idle
    else
      match s.phase.outcome
      case Retryable => SetRow(idle, k, PendingRow(s.db[k]))
      case Fatal => SetRow(idle, k, FailedToStartRow(s.db[k], s.phase.node))
      case _ => idle
  }

  /** A run of the system with its steps; steps[i] leads from run[i] to run[i + 1]. */
  ghost predicate IsRun(run: seq<State>, steps: seq<Step>, names: Key -> string) {
    && |run| == |steps| + 1 && run[0] == INITIAL
    && forall i: nat {:trigger Took(run, steps, i, names)} :: i < |steps| ==> Took(run, steps, i, names)
  }

  ghost predicate Took(run: seq<State>, steps: seq<Step>, i: nat, names: Key -> string)
    requires i < |steps| && i + 1 < |run|
  {
    Enabled(run[i], steps[i], names) && run[i + 1] == Apply(run[i], steps[i], names)
  }
}
