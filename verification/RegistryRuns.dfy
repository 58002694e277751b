/** The dispatcher's accounting over every interleaving of its operations. */
module RegistryRuns {
  import opened Lists
  import opened Sums
  import opened Protocol
  import opened DispatcherRegistries
  import opened StartSafety

  datatype Op =
    | TryStart(key: Key, memory: nat)
    | SetStatus(key: Key, status: Status)
    | Cancel(key: Key)
    | CancelAll(why: string)
    | Finish(key: Key, outcome: Outcome)

  /** The registry, the experiments started and not finished, and how many starts and finishes there were. */
  datatype Account = Account(registry: Registry, live: seq<Key>, starts: nat, finishes: nat)

  function Canceled(r: Registry, k: Key): Registry {
    if k in r.experiments && Active(r.experiments[k].outcome.status)
    then r.(experiments := r.experiments[k := CanceledRecord(r.experiments[k])]) else r
  }

  function AllCanceled(r: Registry, why: string): Registry {
    r.(experiments := map k | k in r.experiments :: CanceledByShutdown(r.experiments[k], why))
  }

  /** How the callers use the registry: a key is not started again before its Finish, each accepted
      start is finished once, the worker reports on its own task, and no sum reaches 2^64. */
  predicate Disciplined(a: Account, op: Op) {
    match op
    case TryStart(k, memory) => k !in a.live && a.registry.reservedMemory + memory < U64 && |a.live| + 1 < U64
    case SetStatus(k, _) => k in a.live
    case Cancel(_) => true
    case CancelAll(_) => true
    case Finish(k, o) => k in a.live && Terminal(o.status)
  }

  function Next(a: Account, op: Op): Account
    requires Disciplined(a, op)
  {
    match op
    case TryStart(k, memory) =>
      if StartRefusal(a.registry, k, memory).Some? then a
      else Account(AfterStart(a.registry, k, memory), a.live + [k], a.starts + 1, a.finishes)
    case SetStatus(k, st) => a.(registry := WithStatus(a.registry, k, st))
    case Cancel(k) => a.(registry := Canceled(a.registry, k))
    case CancelAll(why) => a.(registry := AllCanceled(a.registry, why))
    case Finish(k, o) =>
      Account(AfterFinish(a.registry, k, o), RemoveAt(a.live, IndexOf(a.live, k)), a.starts, a.finishes + 1)
  }

  function Empty(totalSlots: nat, totalMemory: nat): Account {
    Account(Registry(totalSlots, 0, totalMemory, 0, map[]), [], 0, 0)
  }

  ghost predicate Leads(a: Account, op: Op, b: Account) {
    Disciplined(a, op) && b == Next(a, op)
  }

  /** accounts[i + 1] is what ops[i] makes of accounts[i], from an empty registry on. */
  ghost predicate IsHistory(accounts: seq<Account>, ops: seq<Op>) {
    && |accounts| == |ops| + 1
    && accounts[0] == Empty(accounts[0].registry.totalSlots, accounts[0].registry.totalMemory)
    && forall i: nat {:trigger ops[i]} :: i < |ops| ==> Leads(accounts[i], ops[i], accounts[i + 1])
  }

  lemma OpKeepsAccount(a: Account, op: Op)
    requires Accounted(a.registry, a.live) && Disciplined(a, op)
    ensures Accounted(Next(a, op).registry, Next(a, op).live)
  {
    match op
    case TryStart(k, memory) =>
      if StartRefusal(a.registry, k, memory).None? {
        StartKeepsAccount(a.registry, a.live, k, memory);
      }
    case SetStatus(k, st) => OthersKeepAccount(a.registry, Next(a, op).registry, a.live);
    case Cancel(k) => OthersKeepAccount(a.registry, Next(a, op).registry, a.live);
    case CancelAll(why) => OthersKeepAccount(a.registry, Next(a, op).registry, a.live);
    case Finish(k, o) => FinishKeepsAccount(a.registry, a.live, IndexOf(a.live, k), o);
  }

  lemma OpCounts(a: Account, op: Op)
    requires a.starts == a.finishes + |a.live| && Disciplined(a, op)
    ensures var b := Next(a, op); b.starts == b.finishes + |b.live|
    ensures Next(a, op).registry.totalSlots == a.registry.totalSlots
            && Next(a, op).registry.totalMemory == a.registry.totalMemory
  {
  }

  /** In every interleaving the slots in use are the starts minus the finishes, the reserved memory
      is what the live experiments asked for, and neither exceeds its total. */
  lemma {:induction false} AccountedOnHistories(accounts: seq<Account>, ops: seq<Op>, i: nat)
    requires IsHistory(accounts, ops) && i < |accounts|
    ensures var a := accounts[i];
            && Accounted(a.registry, a.live)
            && a.registry.usedSlots == a.starts - a.finishes
            && a.registry.reservedMemory == Sum(a.live, MemoryOf(a.registry.experiments))
            && (a.registry.totalSlots > 0 ==> a.registry.usedSlots <= a.registry.totalSlots)
            && (a.registry.totalMemory > 0 ==> a.registry.reservedMemory <= a.registry.totalMemory)
    ensures accounts[i].starts == accounts[i].finishes + |accounts[i].live|
    decreases i
  {
    if i > 0 {
      AccountedOnHistories(accounts, ops, i - 1);
      assert Leads(accounts[i - 1], ops[i - 1], accounts[i]);
      OpKeepsAccount(accounts[i - 1], ops[i - 1]);
      OpCounts(accounts[i - 1], ops[i - 1]);
    }
  }

  /** The protocol keeps the discipline: a request that reaches a dispatcher whose account lists what
      is unfinished there is for an experiment not in that list. */
  lemma RequestsAreDisciplined(s: State, c: nat, a: Account, memory: nat)
    requires Inv(s) && c < |s.calls| && s.calls[c].phase.Sent?
    requires forall k :: k in a.live ==> Unfinished(s, s.calls[c].node, k)
    requires a.registry.reservedMemory + memory < U64 && |a.live| + 1 < U64
    ensures Disciplined(a, TryStart(s.calls[c].key, memory))
  {
    ArrivingRequestIsFresh(s, c);
  }
}
