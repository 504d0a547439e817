/**
 Runs put together from events, and the concrete beginnings that the reachability results use.
 */
module Scenarios {
  import opened Wrappers
  import opened Comm
  import opened Machine

  // ----- joining runs

  lemma RunOne(h: Host, s: State, e: Event, es: seq<Event>)
    requires Shaped(h, s) && Enabled(h, s, e) && Shaped(h, Step(h, s, e)) && Feasible(h, Step(h, s, e), es)
    ensures Feasible(h, s, [e] + es) && Run(h, s, [e] + es) == Run(h, Step(h, s, e), es)
  {
    assert ([e] + es)[0] == e && ([e] + es)[1..] == es;
  }

  ghost predicate EndsIn(h: Host, s: State, es: seq<Event>, r: State) {
    Shaped(h, s) && Feasible(h, s, es) && Run(h, s, es) == r
  }

  lemma OneEvent(h: Host, s: State, e: Event)
    requires Shaped(h, s) && Enabled(h, s, e)
    ensures EndsIn(h, s, [e], Step(h, s, e))
  {
    StepShape(h, s, e);
    assert [e] + [] == [e];
    RunOne(h, s, e, []);
  }

  /** The rest of a run, which may then be followed by anything. */
  lemma FirstStep(h: Host, s: State, a: seq<Event>, r: State) returns (s1: State)
    requires a != [] && EndsIn(h, s, a, r)
    ensures EndsIn(h, s1, a[1..], r)
    ensures forall b: seq<Event>, q: State :: EndsIn(h, s1, a[1..] + b, q) ==> EndsIn(h, s, a + b, q)
  {
    StepShape(h, s, a[0]);
    s1 := Step(h, s, a[0]);
    forall b: seq<Event>, q: State | EndsIn(h, s1, a[1..] + b, q)
      ensures EndsIn(h, s, a + b, q)
    {
      RunOne(h, s, a[0], a[1..] + b);
      assert a + b == [a[0]] + (a[1..] + b);
    }
  }

  lemma {:induction false} RunConcat(h: Host, s: State, a: seq<Event>, r: State, b: seq<Event>, q: State)
    requires EndsIn(h, s, a, r) && EndsIn(h, r, b, q)
    ensures EndsIn(h, s, a + b, q)
    decreases |a|
  {
    if a == [] {
      assert a + b == b;
    } else {
      var s1 := FirstStep(h, s, a, r);
      RunConcat(h, s1, a[1..], r, b, q);
    }
  }

  /** Three more events at the end of a run. */
  lemma ThreeMore(
      h: Host, s: State, es: seq<Event>, s1: State, e1: Event, s2: State, e2: Event, s3: State, e3: Event, r: State)
    requires EndsIn(h, s, es, s1)
    requires Shaped(h, s1) && Enabled(h, s1, e1) && s2 == Step(h, s1, e1)
    requires Shaped(h, s2) && Enabled(h, s2, e2) && s3 == Step(h, s2, e2)
    requires Shaped(h, s3) && Enabled(h, s3, e3) && r == Step(h, s3, e3)
    ensures EndsIn(h, s, es + [e1] + [e2] + [e3], r)
  {
    OneEvent(h, s1, e1);
    RunConcat(h, s, es, s1, [e1], s2);
    OneEvent(h, s2, e2);
    RunConcat(h, s, es + [e1], s2, [e2], s3);
    OneEvent(h, s3, e3);
    RunConcat(h, s, es + [e1] + [e2], s3, [e3], r);
  }

  // ----- classes through events

  lemma SelectKeepsClasses(h: Host, s: State, t: Task, cpu: Cpu, idle: bool, storage: bool)
    requires Shaped(h, s) && cpu < |s.cpus|
    ensures forall u :: ClassOf(h, SelectCpu(h, s, t, cpu, idle, storage), u) == ClassOf(h, s, u)
  {
    assert SelectCpu(h, s, t, cpu, idle, storage).cache == Remember(h, s, t, storage).cache;
  }

  lemma EnqueueKeepsClasses(h: Host, s: State, t: Task, storage: bool)
    requires Shaped(h, s)
    ensures forall u :: ClassOf(h, Enqueue(h, s, t, storage), u) == ClassOf(h, s, u)
  {
    assert Enqueue(h, s, t, storage).cache == Remember(h, s, t, storage).cache;
  }

  lemma SwitchOutKeepsClasses(h: Host, s: State, cpu: Cpu, storage: bool)
    requires Shaped(h, s) && cpu < |s.cpus| && s.cpus[cpu].current.Some?
    ensures forall u :: ClassOf(h, SwitchOut(h, s, cpu, storage), u) == ClassOf(h, s, u)
  {
    var t := s.cpus[cpu].current.value;
    assert SwitchOut(h, s, cpu, storage).cache == Remember(h, s, t, storage).cache;
  }

  lemma SwitchInKeepsClasses(h: Host, s: State, cpu: Cpu, storage: bool)
    requires Shaped(h, s) && cpu < |s.cpus| && s.cpus[cpu].local != []
    ensures forall u :: ClassOf(h, SwitchIn(h, s, cpu, storage), u) == ClassOf(h, s, u)
  {
    var local := s.cpus[cpu].local;
    var s0 := s.(cpus := s.cpus[cpu := CpuState(Some(local[0]), s.clock, local[1..])]);
    assert forall u :: ClassOf(h, s0, u) == ClassOf(h, s, u);
    assert SwitchIn(h, s, cpu, storage).cache == Remember(h, s0, local[0], storage).cache;
  }

  // ----- beginnings

  /** Three tasks get names. */
  lemma NamedState(h: Host, front: CommRead, back: CommRead) returns (s: State)
    requires h.Valid()
    ensures EndsIn(h, Init(h), [] + [Rename(0, front)] + [Rename(1, front)] + [Rename(2, back)], s)
    ensures s == Init(h).(comm := map[0 := front, 1 := front, 2 := back])
  {
    var e0, e1, e2 := Rename(0, front), Rename(1, front), Rename(2, back);
    var s0 := Init(h);
    var s1 := Step(h, s0, e0);
    var s2 := Step(h, s1, e1);
    s := Step(h, s2, e2);
    ThreeMore(h, s0, [], s0, e0, s1, e1, s2, e2, s);
  }

  lemma PlaceOnCpu(h: Host, s: State, storage: bool) returns (r: State)
    requires Shaped(h, s) && h.nrCpus >= 1 && h.may(0, 0) && s.runnable == {}
    requires s.cpus[0].current.None? && s.cpus[0].local == []
    ensures var e := Wake(0, 0, true, storage, storage);
            Enabled(h, s, e) && r == Step(h, s, e) && Shaped(h, r)
    ensures r.runnable == {0} && r.cpus[0] == s.cpus[0].(local := [0]) && r.dsqs == s.dsqs && r.comm == s.comm
    ensures forall u :: ClassOf(h, r, u) == ClassOf(h, s, u)
    ensures !storage || !h.policy.caches ==> r.cache == s.cache
  {
    var e := Wake(0, 0, true, storage, storage);
    StepShape(h, s, e);
    r := Step(h, s, e);
    assert s.runnable + {0} == {0};
    assert r.cache == Remember(h, s.(runnable := {0}), 0, storage).cache;
  }

  /** Task 0 is woken onto the idle CPU 0 and starts. */
  lemma OccupyCpu(h: Host, s: State, storage: bool) returns (r: State)
    requires Shaped(h, s) && h.nrCpus >= 1 && h.may(0, 0) && s.runnable == {}
    requires s.cpus[0].current.None? && s.cpus[0].local == []
    ensures Enabled(h, s, Wake(0, 0, true, storage, storage))
    ensures var s1 := Step(h, s, Wake(0, 0, true, storage, storage));
            && Shaped(h, s1) && Enabled(h, s1, Start(0, storage)) && Shaped(h, r)
            && r == Step(h, s1, Start(0, storage))
    ensures r.runnable == {0} && r.cpus[0].current == Some(0) && r.cpus[0].local == []
    ensures r.dsqs == s.dsqs && r.comm == s.comm
    ensures forall u :: ClassOf(h, r, u) == ClassOf(h, s, u)
    ensures !storage || !h.policy.caches ==> r.cache == s.cache
  {
    var s1 := PlaceOnCpu(h, s, storage);
    StepShape(h, s1, Start(0, storage));
    r := Step(h, s1, Start(0, storage));
    assert r.cache == Remember(h, s1, 0, storage).cache;
  }

  /** Two tasks get names. */
  lemma NamedPair(h: Host, front: CommRead, back: CommRead) returns (s: State)
    requires h.Valid()
    ensures EndsIn(h, Init(h), [Rename(1, front)] + [Rename(0, back)], s)
    ensures s == Init(h).(comm := map[1 := front, 0 := back])
  {
    var e0, e1 := Rename(1, front), Rename(0, back);
    var s1 := Step(h, Init(h), e0);
    s := Step(h, s1, e1);
    OneEvent(h, Init(h), e0);
    OneEvent(h, s1, e1);
    RunConcat(h, Init(h), [e0], s1, [e1], s);
  }
}
