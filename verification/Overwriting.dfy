/** Distinct journal file names are not only enough for keeping every result, they are needed. */
module Overwriting {
  import opened Options
  import opened Protocol
  import opened Delivery

  /** The steps lead from s to t. */
  ghost predicate Leads(s: State, steps: seq<Step>, t: State, names: Key -> string)
    decreases |steps|
  {
    if steps == [] then t == s
    else Enabled(s, steps[0], names) && Leads(Apply(s, steps[0], names), steps[1..], t, names)
  }

  lemma {:induction false} LeadsOn(s: State, steps: seq<Step>, t: State, step: Step, names: Key -> string)
    requires Leads(s, steps, t, names) && Enabled(t, step, names)
    ensures Leads(s, steps + [step], Apply(t, step, names), names)
    decreases |steps|
  {
    hide Enabled, Apply;
    if steps == [] {
      assert ([] + [step])[1..] == [];
    } else {
      LeadsOn(Apply(s, steps[0], names), steps[1..], t, step, names);
      assert (steps + [step])[1..] == steps[1..] + [step];
    }
  }

  /** What leads on from the end of a run extends the run. */
  lemma {:induction false} RunsOn(run: seq<State>, done: seq<Step>, steps: seq<Step>, t: State, names: Key -> string)
    returns (longer: seq<State>)
    requires IsRun(run, done, names) && Leads(run[|done|], steps, t, names)
    ensures IsRun(longer, done + steps, names) && longer[|done + steps|] == t
    decreases |steps|
  {
    hide Enabled, Apply;
    if steps == [] {
      assert done + steps == done;
      longer := run;
    } else {
      var next := Apply(run[|done|], steps[0], names);
      var further, reached := done + [steps[0]], run + [next];
      forall i: nat | i < |further|
        ensures Took(reached, further, i, names)
      {
        assert i < |done| ==> Took(run, done, i, names);
      }
      longer := RunsOn(reached, further, steps[1..], t, names);
      assert further + steps[1..] == done + steps;
    }
  }

  function Launched(s: State, k: Key, n: Node): State {
    var d := At(s, n);
    s.(db := s.db[k := Row(Starting, Some(n), None)],
       calls := s.calls + [Call(k, n, Answered(Accepted))],
       dispatchers := s.dispatchers[n := d.(registry := d.registry[k := Entry(Starting, false)],
         running := d.running + {k})],
       accepted := s.accepted + [Acceptance(k, n)])
  }

  /** An experiment from its submission to a worker; then the control plane restarts. */
  function LaunchSteps(k: Key, n: Node, call: nat): seq<Step> {
    [Submit(k), MarkStarting(k, n), SendStart, Admit(call), HandOver(call), RestartControlPlane]
  }

  /** The state in which the request for k is on its way. */
  function Requested(s: State, k: Key, n: Node): State {
    s.(db := s.db[k := Row(Starting, Some(n), None)], phase := Waiting(k, |s.calls|),
      calls := s.calls + [Call(k, n, Sent)])
  }

  lemma Requests(s: State, done: seq<Step>, k: Key, n: Node, names: Key -> string)
    requires Leads(INITIAL, done, s, names) && s.phase.Idle? && k !in s.db
    ensures Leads(INITIAL, done + [Submit(k)] + [MarkStarting(k, n)] + [SendStart], Requested(s, k, n), names)
  {
    hide Leads;
    LeadsOn(INITIAL, done, s, Submit(k), names);
    var s1 := Apply(s, Submit(k), names);
    LeadsOn(INITIAL, done + [Submit(k)], s1, MarkStarting(k, n), names);
    var s2 := Apply(s1, MarkStarting(k, n), names);
    assert s2 == s.(db := s.db[k := Row(Starting, Some(n), None)], phase := Marked(k, n));
    LeadsOn(INITIAL, done + [Submit(k)] + [MarkStarting(k, n)], s2, SendStart, names);
  }

  function AdmittedTo(s: State, k: Key, n: Node): State {
    var d := At(s, n);
    Requested(s, k, n).(calls := s.calls + [Call(k, n, Admitted)],
      dispatchers := s.dispatchers[n := d.(registry := d.registry[k := Entry(Starting, false)])])
  }

  lemma Admits(s: State, k: Key, n: Node, names: Key -> string)
    requires s.phase.Idle? && k !in At(s, n).registry
    ensures var s0, step := Requested(s, k, n), Admit(|s.calls|);
            Enabled(s0, step, names) && Apply(s0, step, names) == AdmittedTo(s, k, n)
  {
  }

  lemma TakesOver(s: State, done: seq<Step>, k: Key, n: Node, names: Key -> string)
    requires Leads(INITIAL, done, Requested(s, k, n), names) && s.phase.Idle? && k !in At(s, n).registry
    ensures Leads(INITIAL, done + [Admit(|s.calls|)] + [HandOver(|s.calls|)] + [RestartControlPlane],
            Launched(s, k, n), names)
  {
    hide Leads;
    var c, s1 := |s.calls|, AdmittedTo(s, k, n);
    Admits(s, k, n, names);
    LeadsOn(INITIAL, done, Requested(s, k, n), Admit(c), names);
    LeadsOn(INITIAL, done + [Admit(c)], s1, HandOver(c), names);
    var s2 := Apply(s1, HandOver(c), names);
    assert s2.calls == s.calls + [Call(k, n, Answered(Accepted))] && s2.dispatchers == Launched(s, k, n).dispatchers;
    LeadsOn(INITIAL, done + [Admit(c)] + [HandOver(c)], s2, RestartControlPlane, names);
    assert Apply(s2, RestartControlPlane, names) == Launched(s, k, n);
  }

  lemma Launches(s: State, done: seq<Step>, k: Key, n: Node, names: Key -> string)
    requires Leads(INITIAL, done, s, names)
    requires s.phase.Idle? && k !in s.db && k !in At(s, n).registry
    ensures Leads(INITIAL, done + LaunchSteps(k, n, |s.calls|), Launched(s, k, n), names)
  {
    hide Leads, Launched, Requested;
    Requests(s, done, k, n, names);
    var half, c := done + [Submit(k)] + [MarkStarting(k, n)] + [SendStart], |s.calls|;
    TakesOver(s, half, k, n, names);
    assert half + [Admit(c)] + [HandOver(c)] + [RestartControlPlane] == done + LaunchSteps(k, n, c);
  }

  /** A task ends and its worker writes the journal. */
  lemma Reports(s: State, done: seq<Step>, k: Key, n: Node, names: Key -> string) returns (t: State, steps: seq<Step>)
    requires Leads(INITIAL, done, s, names)
    requires k in At(s, n).running && At(s, n).hand == map[] && k in At(s, n).registry
             && !At(s, n).registry[k].cancelRequested
    ensures Leads(INITIAL, steps, t, names)
    ensures var r := Result(k, Finished, 0);
            && t.db == s.db && t.lost == s.lost && t.finished == s.finished + {r}
            && t.dispatchers.Keys == s.dispatchers.Keys + {n}
            && (forall m :: m != n ==> At(t, m) == At(s, m))
            && At(t, n).hand == map[] && At(t, n).journal == At(s, n).journal[names(k) := Readable(r)]
            && At(t, n).running == At(s, n).running - {k}
                 && At(t, n).registry == At(s, n).registry[k := Entry(Finished, false)]
  {
    hide Leads;
    var complete := Complete(n, k, Finished, 0);
    LeadsOn(INITIAL, done, s, complete, names);
    var s1 := Apply(s, complete, names);
    LeadsOn(INITIAL, done + [complete], s1, Persist(n, k), names);
    t, steps := Apply(s1, Persist(n, k), names), done + [complete] + [Persist(n, k)];
  }

  /** Two experiments that share a file: the second result overwrites the first, and nothing has failed. */
  lemma SharedNameLosesResult(names: Key -> string, k: Key, l: Key)
    returns (run: seq<State>, steps: seq<Step>, r: Result)
    requires k != l && names(k) == names(l)
    ensures IsRun(run, steps, names) && run[|steps|].lost == {}
    ensures r in run[|steps|].finished && !Kept(run[|steps|], r, names)
  {
    var n := "node";
    Launches(INITIAL, [], k, n, names);
    var s1 := Launched(INITIAL, k, n);
    Launches(s1, [] + LaunchSteps(k, n, 0), l, n, names);
    var s2 := Launched(s1, l, n);
    var s3, some := Reports(s2, [] + LaunchSteps(k, n, 0) + LaunchSteps(l, n, 1), k, n, names);
    var s4, all := Reports(s3, some, l, n, names);
    r := Result(k, Finished, 0);
    run := RunsOn([INITIAL], [], all, s4, names);
    steps := [] + all;
    assert At(s4, n).journal[names(k)] == Readable(Result(l, Finished, 0));
    assert forall m :: m != n ==> At(s4, m) == FRESH_DISPATCHER;
  }

  ghost predicate Distinct(names: Key -> string) {
    forall k, l {:trigger names(k), names(l)} :: names(k) == names(l) ==> k == l
  }

  ghost predicate KeepsAll(names: Key -> string) {
    forall run, steps, i: nat {:trigger IsRun(run, steps, names), run[i]} ::
      IsRun(run, steps, names) && i < |run| ==> AllKept(run[i], names)
  }

  /** Every result of every run is kept or destroyed by a fault, exactly if file names are distinct. */
  lemma KeptExactlyIfDistinct(names: Key -> string)
    ensures KeepsAll(names) <==> Distinct(names)
  {
    if Distinct(names) {
      forall run, steps, i: nat | IsRun(run, steps, names) && i < |run|
        ensures AllKept(run[i], names)
      {
        EveryResultIsKept(run, steps, names, i);
      }
    } else {
      var k, l :| names(k) == names(l) && k != l;
      var run, steps, r := SharedNameLosesResult(names, k, l);
      assert !AllKept(run[|steps|], names);
    }
  }
}
