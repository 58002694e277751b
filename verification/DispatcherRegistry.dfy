/** The dispatcher's registry: which experiments it knows, and how many slots and how much memory
    they hold. */
module DispatcherRegistries {
  import opened Lists
  import opened Options
  import opened Sums
  import opened Protocol

  const U64 := 0x1_0000_0000_0000_0000

  function Add64(a: nat, b: nat): nat {
    (a + b) % U64
  }

  datatype Outcome = Outcome(status: Status, finishReason: string)

  datatype Record = Record(outcome: Outcome, memoryReserved: nat, cancelRequested: bool, cancelReason: string)

  datatype Registry = Registry(
    totalSlots: nat, usedSlots: nat, totalMemory: nat, reservedMemory: nat, experiments: map<Key, Record>)

  // ---------- operations ----------

  function StartRefusal(r: Registry, k: Key, memory: nat): Option<Code> {
    if k in r.experiments && Active(r.experiments[k].outcome.status) then Some(AlreadyRunning)
    else if r.totalSlots > 0 && r.usedSlots >= r.totalSlots then Some(NoFreeSlots)
    else if r.totalMemory > 0 && memory > 0 && Add64(r.reservedMemory, memory) > r.totalMemory
      then Some(NotEnoughMemory)
    else None
  }

  function AfterStart(r: Registry, k: Key, memory: nat): Registry {
    r.(experiments := r.experiments[k := Record(Outcome(Starting, ""), memory, false, "")],
       usedSlots := Add64(r.usedSlots, 1), reservedMemory := Add64(r.reservedMemory, memory))
  }

  function WithStatus(r: Registry, k: Key, st: Status): Registry {
    if k !in r.experiments then r
    else
      var x := r.experiments[k];
      r.(experiments := r.experiments[k := x.(outcome := x.outcome.(status := st))])
  }

  function CanceledRecord(x: Record): Record {
    var reason := if x.cancelReason == "" then "user_canceled" else x.cancelReason;
    x.(cancelRequested := true, cancelReason := reason, outcome := Outcome(Canceled, reason))
  }

  function CanceledByShutdown(x: Record, why: string): Record {
    if !Active(x.outcome.status) then x
    else
      var reason := if x.cancelReason == "" then why else x.cancelReason;
      x.(cancelRequested := true, cancelReason := reason,
         outcome := Outcome(Canceled, if x.outcome.finishReason == "" then reason else x.outcome.finishReason))
  }

  /** A requested cancellation turns every outcome but FINISHED into CANCELED. */
  function FinalOutcome(x: Record, o: Outcome): Outcome {
    if x.cancelRequested && !o.status.Finished? then
      Outcome(Canceled,
              if x.cancelReason != "" then x.cancelReason
              else if o.finishReason == "" then "user_canceled" else o.finishReason)
    else o
  }

  function FirstGiven(reasons: seq<string>): string {
    if reasons == [] then "" else if reasons[0] != "" then reasons[0] else FirstGiven(reasons[1..])
  }

  lemma FirstIs(a: string, rest: seq<string>)
    ensures FirstGiven([a] + rest) == if a != "" then a else FirstGiven(rest)
  {
    assert ([a] + rest)[1..] == rest;
  }

  lemma FirstOf(a: string, b: string, c: string)
    ensures FirstGiven([a, b]) == if a != "" then a else b
    ensures FirstGiven([a, b, c]) == if a != "" then a else if b != "" then b else c
  {
    hide FirstGiven;
    assert [b] == [b] + [] && [c] == [c] + [] && [a, b] == [a] + [b];
    assert [b, c] == [b] + [c] && [a, b, c] == [a] + [b, c];
    NoneGiven();
    FirstIs(b, []);
    FirstIs(c, []);
    FirstIs(a, [b]);
    FirstIs(b, [c]);
    FirstIs(a, [b, c]);
  }

  lemma FinalReason(x: Record, o: Outcome)
    ensures FinalOutcome(x, o) ==
              if !x.cancelRequested || o.status.Finished? then o
              else Outcome(Canceled, FirstGiven([x.cancelReason, o.finishReason, "user_canceled"]))
  {
    FirstOf(x.cancelReason, o.finishReason, "user_canceled");
    hide FirstGiven;
  }

  lemma NoneGiven()
    ensures FirstGiven([]) == ""
  {
  }

  /** Shutdown cancels what is active for the first reason given and leaves the rest alone. */
  lemma ShutdownCancels(x: Record, why: string)
    ensures var given := FirstGiven([x.cancelReason, why]);
            CanceledByShutdown(x, why) ==
              if x.outcome.status in {Pending, Starting, Running}
                then Record(Outcome(Canceled, FirstGiven([x.outcome.finishReason, given])),
                            x.memoryReserved, true, given)
              else x
  {
    FirstOf(x.cancelReason, why, "");
    FirstOf(x.outcome.finishReason, FirstGiven([x.cancelReason, why]), "");
  }

  /** The reason that was given first stands: a canceled experiment ends CANCELED for it, whatever
      happens to it later, unless it still manages to finish. */
  lemma FirstReasonStands(x: Record, o: Outcome)
    requires x.cancelReason != ""
    ensures CanceledRecord(x).cancelReason == x.cancelReason
    ensures forall why :: CanceledByShutdown(x, why).cancelReason == x.cancelReason
    ensures x.cancelRequested ==>
              FinalOutcome(x, o) == if o.status.Finished? then o else Outcome(Canceled, x.cancelReason)
  {
  }

  function Less(a: nat, b: nat): nat {
    if a >= b then a - b else 0
  }

  function AfterFinish(r: Registry, k: Key, o: Outcome): Registry {
    if k !in r.experiments then r.(experiments := r.experiments[k := Record(o, 0, false, "")])
    else
      var x := r.experiments[k];
      r.(experiments := r.experiments[k := x.(outcome := FinalOutcome(x, o), memoryReserved := 0)],
         reservedMemory := Less(r.reservedMemory, x.memoryReserved), usedSlots := Less(r.usedSlots, 1))
  }

  // ---------- accounting ----------

  function MemoryOf(experiments: map<Key, Record>): Key -> int {
    (k: Key) => if k in experiments then experiments[k].memoryReserved else 0
  }

  /** live lists the experiments started and not finished yet. */
  ghost predicate Accounted(r: Registry, live: seq<Key>) {
    && (forall i, j :: 0 <= i < j < |live| ==> live[i] != live[j])
    && (forall i :: 0 <= i < |live| ==> live[i] in r.experiments)
    && r.usedSlots == |live| && r.reservedMemory == Sum(live, MemoryOf(r.experiments))
    && (forall k {:trigger k in r.experiments} ::
         k in r.experiments && k !in live ==>
         !Active(r.experiments[k].outcome.status) && r.experiments[k].memoryReserved == 0)
    && (r.totalSlots > 0 ==> r.usedSlots <= r.totalSlots)
    && (r.totalMemory > 0 ==> r.reservedMemory <= r.totalMemory)
  }

  lemma {:induction false} SumAgrees(xs: seq<Key>, f: Key -> int, g: Key -> int)
    requires forall i :: 0 <= i < |xs| ==> f(xs[i]) == g(xs[i])
    ensures Sum(xs, f) == Sum(xs, g)
  {
    if xs != [] {
      SumAgrees(xs[..|xs| - 1], f, g);
    }
  }

  /** Short of 64-bit overflow, a start is accounted for exactly if the experiment was not live. */
  lemma StartKeepsAccount(r: Registry, live: seq<Key>, k: Key, memory: nat)
    requires Accounted(r, live) && StartRefusal(r, k, memory).None?
    requires r.reservedMemory + memory < U64 && |live| + 1 < U64
    ensures Accounted(AfterStart(r, k, memory), live + [k]) <==> k !in live
  {
    var r' := AfterStart(r, k, memory);
    if k in live {
      var i :| 0 <= i < |live| && live[i] == k;
      assert (live + [k])[i] == (live + [k])[|live|];
    } else {
      StartOfAnother(r, live, k, memory);
    }
  }

  lemma StartOfAnother(r: Registry, live: seq<Key>, k: Key, memory: nat)
    requires Accounted(r, live) && StartRefusal(r, k, memory).None? && k !in live
    requires r.reservedMemory + memory < U64 && |live| + 1 < U64
    ensures Accounted(AfterStart(r, k, memory), live + [k])
  {
    var r' := AfterStart(r, k, memory);
    SumSnoc(live, k, MemoryOf(r'.experiments));
    SumAgrees(live, MemoryOf(r.experiments), MemoryOf(r'.experiments));
    hide Sum;
    assert r'.usedSlots == |live + [k]| && r'.reservedMemory == r.reservedMemory + memory;
    assert forall i :: 0 <= i < |live| ==> (live + [k])[i] == live[i];
    forall l | l in r'.experiments && l !in live + [k]
      ensures !Active(r'.experiments[l].outcome.status) && r'.experiments[l].memoryReserved == 0
    {
      assert l != k && l in r.experiments && l !in live;
    }
  }

  lemma OthersKeepAccount(r: Registry, r': Registry, live: seq<Key>)
    requires Accounted(r, live)
    requires r' == r.(experiments := r'.experiments) && r'.experiments.Keys == r.experiments.Keys
    requires forall k :: k in r.experiments ==> r'.experiments[k].memoryReserved == r.experiments[k].memoryReserved
    requires forall k :: k in r.experiments && k !in live ==> !Active(r'.experiments[k].outcome.status)
    ensures Accounted(r', live)
  {
    SumAgrees(live, MemoryOf(r.experiments), MemoryOf(r'.experiments));
    forall k | k in r'.experiments && k !in live
      ensures !Active(r'.experiments[k].outcome.status) && r'.experiments[k].memoryReserved == 0
    {
      assert k in r.experiments;
    }
  }

  /** Finishing a live experiment returns exactly what it held; neither subtraction saturates. */
  lemma FinishKeepsAccount(r: Registry, live: seq<Key>, i: nat, o: Outcome)
    requires Accounted(r, live) && i < |live| && Terminal(o.status)
    ensures r.usedSlots > 0 && r.reservedMemory >= r.experiments[live[i]].memoryReserved
    ensures Accounted(AfterFinish(r, live[i], o), RemoveAt(live, i)) && live[i] !in RemoveAt(live, i)
  {
    var k := live[i];
    var r' := AfterFinish(r, k, o);
    var rest := RemoveAt(live, i);
    SumRemoveAt(live, i, MemoryOf(r.experiments));
    RestOfLive(live, i);
    SumAgrees(rest, MemoryOf(r.experiments), MemoryOf(r'.experiments));
    SumNonNegative(rest, MemoryOf(r.experiments));
    forall l | l in r'.experiments && l !in rest
      ensures !Active(r'.experiments[l].outcome.status) && r'.experiments[l].memoryReserved == 0
    {
      assert l in r.experiments;
    }
  }

  lemma RestOfLive(live: seq<Key>, i: nat)
    requires i < |live| && forall a, b :: 0 <= a < b < |live| ==> live[a] != live[b]
    ensures var rest := RemoveAt(live, i);
            && (forall a, b :: 0 <= a < b < |rest| ==> rest[a] != rest[b])
            && live[i] !in rest
            && forall l :: l in rest <==> l in live && l != live[i]
  {
    var rest := RemoveAt(live, i);
    forall l | l in live && l != live[i]
      ensures l in rest
    {
      var j :| 0 <= j < |live| && live[j] == l;
      assert l == rest[if j < i then j else j - 1];
    }
  }

  // ---------- without the discipline ----------

  /** A key restarted after its cancellation but before its Finish leaks the memory of the first start. */
  lemma RestartLeaksMemory(k: Key)
    ensures var r0 := Registry(2, 0, 100, 0, map[]);
            var r1 := AfterStart(r0, k, 5);
            var r2 := r1.(experiments := r1.experiments[k := CanceledRecord(r1.experiments[k])]);
            var r3 := AfterStart(r2, k, 5);
            var r5 := AfterFinish(AfterFinish(r3, k, Outcome(Failed, "")), k, Outcome(Failed, ""));
            && StartRefusal(r0, k, 5).None? && StartRefusal(r2, k, 5).None?
            && r5.usedSlots == 0 && r5.reservedMemory == 5
            && forall live :: !Accounted(r5, live)
  {
    var r0 := Registry(2, 0, 100, 0, map[]);
    var r1 := AfterStart(r0, k, 5);
    var r2 := r1.(experiments := r1.experiments[k := CanceledRecord(r1.experiments[k])]);
    var r3 := AfterStart(r2, k, 5);
    var r5 := AfterFinish(AfterFinish(r3, k, Outcome(Failed, "")), k, Outcome(Failed, ""));
    forall live
      ensures !Accounted(r5, live)
    {
      if |live| == 0 {
        assert live == [];
      }
    }
  }

  // ---------- the object ----------

  /** Every method runs under the registry's mutex, so its calls are atomic. */
  class RegistryObject {
    const totalSlots: nat
    const totalMemory: nat
    var usedSlots: nat
    var reservedMemory: nat
    var experiments: map<Key, Record>

    /** The experiments that were started and not finished yet, as long as none is restarted. */
    ghost var live: seq<Key>

    function State(): Registry
      reads this
    {
      Registry(totalSlots, usedSlots, totalMemory, reservedMemory, experiments)
    }

    ghost predicate Valid()
      reads this
    {
      Accounted(State(), live)
    }

    constructor (totalSlots: nat, totalMemory: nat)
      ensures Valid() && live == [] && State() == Registry(totalSlots, 0, totalMemory, 0, map[])
    {
      this.totalSlots, this.totalMemory := totalSlots, totalMemory;
      usedSlots, reservedMemory, experiments, live := 0, 0, map[], [];
    }

    method TryStart(k: Key, memory: nat) returns (refusal: Option<Code>)
      modifies this
      ensures refusal == StartRefusal(old(State()), k, memory)
      ensures State() == if refusal.Some? then old(State()) else AfterStart(old(State()), k, memory)
      ensures var running := k in old(experiments) && Active(old(experiments)[k].outcome.status);
              var full := totalSlots > 0 && old(usedSlots) >= totalSlots;
              var short := totalMemory > 0 && memory > 0 && (old(reservedMemory) + memory) % U64 > totalMemory;
              && (refusal == Some(AlreadyRunning) <==> running)
              && (refusal == Some(NoFreeSlots) <==> !running && full)
              && (refusal == Some(NotEnoughMemory) <==> !running && !full && short)
              && (refusal == None <==> !running && !full && !short)
      ensures refusal.None? ==>
                && usedSlots == (old(usedSlots) + 1) % U64 && reservedMemory == (old(reservedMemory) + memory) % U64
                && experiments == old(experiments)[k := Record(Outcome(Starting, ""), memory, false, "")]
      ensures old(Valid()) && k !in old(live) && old(reservedMemory) + memory < U64 && old(usedSlots) + 1 < U64 ==>
                Valid() && live == if refusal.Some? then old(live) else old(live) + [k]
    {
      if k in experiments && Active(experiments[k].outcome.status) {
        return Some(AlreadyRunning);
      }
      if totalSlots > 0 && usedSlots >= totalSlots {
        return Some(NoFreeSlots);
      }
      if totalMemory > 0 && memory > 0 && Add64(reservedMemory, memory) > totalMemory {
        return Some(NotEnoughMemory);
      }
      if Valid() && k !in live && reservedMemory + memory < U64 && usedSlots + 1 < U64 {
        StartKeepsAccount(State(), live, k, memory);
      }
      experiments := experiments[k := Record(Outcome(Starting, ""), memory, false, "")];
      usedSlots := Add64(usedSlots, 1);
      reservedMemory := Add64(reservedMemory, memory);
      live := live + [k];
      refusal := None;
    }

    method SetStatus(k: Key, st: Status)
      modifies this`experiments
      ensures State() == WithStatus(old(State()), k, st)
      ensures experiments.Keys == old(experiments).Keys
      ensures forall l :: l in experiments ==>
                var x := old(experiments)[l];
                experiments[l] == if l != k then x
                  else Record(Outcome(st, x.outcome.finishReason), x.memoryReserved, x.cancelRequested, x.cancelReason)
      ensures old(Valid()) && k in live ==> Valid()
    {
      if k in experiments {
        if Valid() && k in live {
          OthersKeepAccount(State(), WithStatus(State(), k, st), live);
        }
        experiments := experiments[k := experiments[k].(outcome := experiments[k].outcome.(status := st))];
      }
    }

    method Cancel(k: Key) returns (requested: bool)
      modifies this`experiments
      ensures requested == (k in old(experiments) && Active(old(experiments)[k].outcome.status))
      ensures State() ==
              if requested then old(State()).(experiments := old(experiments)[k := CanceledRecord(old(experiments)[k])])
              else old(State())
      ensures requested ==>
                var x, why := old(experiments)[k], FirstGiven([old(experiments)[k].cancelReason, "user_canceled"]);
                experiments[k] == Record(Outcome(Canceled, why), x.memoryReserved, true, why)
      ensures old(Valid()) ==> Valid()
    {
      if k !in experiments || !Active(experiments[k].outcome.status) {
        return false;
      }
      FirstOf(experiments[k].cancelReason, "user_canceled", "");
      ghost var r' := State().(experiments := experiments[k := CanceledRecord(experiments[k])]);
      if Valid() {
        OthersKeepAccount(State(), r', live);
      }
      experiments := experiments[k := CanceledRecord(experiments[k])];
      requested := true;
    }

    /** Shutdown cancels every active experiment and counts them. */
    method CancelAll(why: string) returns (count: nat)
      modifies this`experiments
      ensures State() == old(State()).(experiments := map k | k in old(experiments) ::
              CanceledByShutdown(old(experiments)[k], why))
      ensures count == |set k | k in old(experiments) && Active(old(experiments)[k].outcome.status)|
      ensures old(Valid()) ==> Valid()
    {
      ghost var was := experiments;
      var keys := experiments.Keys;
      count := 0;
      ghost var canceled: set<Key> := {};
      while keys != {}
        invariant keys <= was.Keys == experiments.Keys
        invariant forall k :: k in was ==> experiments[k] == if k in keys then was[k]
                  else CanceledByShutdown(was[k], why)
        invariant canceled == set k | k in was && k !in keys && Active(was[k].outcome.status)
        invariant count == |canceled|
        decreases |keys|
      {
        var k :| k in keys;
        if Active(experiments[k].outcome.status) {
          experiments := experiments[k := CanceledByShutdown(experiments[k], why)];
          count := count + 1;
          canceled := canceled + {k};
        }
        keys := keys - {k};
      }
      assert canceled == set k | k in was && Active(was[k].outcome.status);
      assert experiments == map k | k in was :: CanceledByShutdown(was[k], why);
      if old(Valid()) {
        OthersKeepAccount(old(State()), State(), live);
      }
    }

    method Finish(k: Key, o: Outcome) returns (final: Outcome)
      modifies this
      ensures State() == AfterFinish(old(State()), k, o) && final == experiments[k].outcome
      ensures final == if k !in old(experiments) || !old(experiments)[k].cancelRequested || o.status.Finished? then o
              else Outcome(Canceled, FirstGiven([old(experiments)[k].cancelReason, o.finishReason, "user_canceled"]))
      ensures old(Valid()) && k in old(live) && Terminal(o.status) ==>
                Valid() && k !in live && multiset(live) == multiset(old(live)) - multiset{k}
    {
      hide Accounted, FinalOutcome, FirstGiven, Sum;
      if k in live {
        ghost var i :| 0 <= i < |live| && live[i] == k;
        if Valid() && Terminal(o.status) {
          FinishKeepsAccount(State(), live, i, o);
        }
        RemoveAtMultiset(live, i);
        live := RemoveAt(live, i);
      }
      if k !in experiments {
        experiments := experiments[k := Record(o, 0, false, "")];
        return o;
      }
      var x := experiments[k];
      FinalReason(x, o);
      final := FinalOutcome(x, o);
      if x.memoryReserved > 0 {
        if reservedMemory >= x.memoryReserved {
          reservedMemory := reservedMemory - x.memoryReserved;
        } else {
          reservedMemory := 0;
        }
      }
      if usedSlots > 0 {
        usedSlots := usedSlots - 1;
      }
      experiments := experiments[k := x.(outcome := final, memoryReserved := 0)];
    }

    /** The number of active experiments, as reported to the control plane. */
    method CountActive() returns (active: nat)
      ensures active == |set k | k in experiments && Active(experiments[k].outcome.status)|
      ensures Valid() ==> active <= usedSlots
    {
      var keys := experiments.Keys;
      active := 0;
      ghost var seen: set<Key> := {};
      while keys != {}
        invariant keys <= experiments.Keys
        invariant seen == set k | k in experiments && k !in keys && Active(experiments[k].outcome.status)
        invariant active == |seen|
        decreases |keys|
      {
        var k :| k in keys;
        if Active(experiments[k].outcome.status) {
          active := active + 1;
          seen := seen + {k};
        }
        keys := keys - {k};
      }
      assert seen == set k | k in experiments && Active(experiments[k].outcome.status);
      if Valid() {
        ActiveAreLive(State(), live, seen);
      }
    }
  }

  lemma {:induction false} ElementsOf(xs: seq<Key>)
    ensures |set x | x in xs| <= |xs|
  {
    if xs != [] {
      var rest := xs[..|xs| - 1];
      ElementsOf(rest);
      assert (set x | x in xs) == (set x | x in rest) + {xs[|xs| - 1]};
    }
  }

  lemma ActiveAreLive(r: Registry, live: seq<Key>, active: set<Key>)
    requires Accounted(r, live) && active == set k | k in r.experiments && Active(r.experiments[k].outcome.status)
    ensures |active| <= r.usedSlots
  {
    var alive := set k | k in live;
    forall k | k in active
      ensures k in alive
    {
      assert k in r.experiments;
    }
    SubsetIsSmaller(active, alive);
    ElementsOf(live);
  }
}
