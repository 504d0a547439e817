/**
 Two policies that agree on everything but the numbers of their queues take the same
 steps: from corresponding states the same events are possible and lead to corresponding
 states, with the same inserts, slices, moves, kicks and map contents up to those numbers.
 */
module Simulation {
  import opened Wrappers
  import opened Machine

  /** Agreement up to queue numbers; the classifiers agree on every outcome of a name read. */
  ghost predicate SamePolicy(p: Policy, q: Policy) {
    && p.fgSlice == q.fgSlice && p.bgSlice == q.bgSlice
    && p.preempts == q.preempts && p.caches == q.caches && p.boundedScan == q.boundedScan
    && (p.fgDsq == Global <==> q.fgDsq == Global)
    && forall read :: p.classify(read) == q.classify(read)
  }

  ghost predicate SameHost(h: Host, k: Host) {
    h.Valid() && k.Valid() && SamePolicy(h.policy, k.policy) && h.nrCpus == k.nrCpus && h.may == k.may
  }

  function MapId(p: Policy, q: Policy, id: DsqId): DsqId {
    if id == p.fgDsq then q.fgDsq else if id == p.bgDsq then q.bgDsq else id
  }

  function MapEffect(p: Policy, q: Policy, e: Effect): Effect {
    match e
    case Insert(t, dsq, slice) => Insert(t, MapId(p, q, dsq), slice)
    case Move(t, dsq, cpu) => Move(t, MapId(p, q, dsq), cpu)
    case _ => e
  }

  function MapLog(p: Policy, q: Policy, log: seq<Effect>): seq<Effect> {
    seq(|log|, i requires 0 <= i < |log| => MapEffect(p, q, log[i]))
  }

  ghost predicate Corresponds(h: Host, k: Host, s: State, r: State) {
    && Shaped(h, s) && Shaped(k, r)
    && r == s.(dsqs := r.dsqs, log := MapLog(h.policy, k.policy, s.log))
    && r.dsqs[Global] == s.dsqs[Global]
    && r.dsqs[k.policy.fgDsq] == s.dsqs[h.policy.fgDsq]
    && r.dsqs[k.policy.bgDsq] == s.dsqs[h.policy.bgDsq]
  }

  lemma SameClasses(h: Host, k: Host, s: State, r: State, t: Task)
    requires SameHost(h, k) && Corresponds(h, k, s, r)
    ensures ClassOf(k, r, t) == ClassOf(h, s, t)
    ensures forall storage :: Remember(k, r, t, storage).cache == Remember(h, s, t, storage).cache
    ensures forall storage :: Corresponds(h, k, Remember(h, s, t, storage), Remember(k, r, t, storage))
  {
  }

  lemma EmitCorresponds(h: Host, k: Host, s: State, r: State, e: Effect)
    requires Corresponds(h, k, s, r)
    ensures Corresponds(h, k, Emit(s, e), Emit(r, MapEffect(h.policy, k.policy, e)))
  {
  }

  lemma InsertCorresponds(h: Host, k: Host, s: State, r: State, t: Task, dsq: DsqId, slice: nat)
    requires SameHost(h, k) && Corresponds(h, k, s, r)
    requires dsq == h.policy.fgDsq || dsq == h.policy.bgDsq
    ensures Corresponds(h, k, InsertAt(s, t, dsq, slice), InsertAt(r, t, MapId(h.policy, k.policy, dsq), slice))
  {
    InsertShape(h, s, t, dsq, slice);
    InsertShape(k, r, t, MapId(h.policy, k.policy, dsq), slice);
    EmitCorresponds(h, k, s, r, Insert(t, dsq, slice));
  }

  lemma EnqueueCorresponds(h: Host, k: Host, s: State, r: State, t: Task, storage: bool)
    requires SameHost(h, k) && Corresponds(h, k, s, r)
    ensures Corresponds(h, k, Enqueue(h, s, t, storage), Enqueue(k, r, t, storage))
  {
    SameClasses(h, k, s, r, t);
    var class_ := ClassOf(h, s, t);
    InsertCorresponds(h, k, Remember(h, s, t, storage), Remember(k, r, t, storage),
                      t, DsqFor(h, class_), SliceFor(h, class_));
  }

  lemma KickCorresponds(h: Host, k: Host, s: State, r: State)
    requires SameHost(h, k) && Corresponds(h, k, s, r)
    ensures Corresponds(h, k, KickOne(h, s), KickOne(k, r))
  {
    SameScan(s, r, 0, h.ScanLimit());
    var found := Scan(s, s.clock, 0, h.ScanLimit());
    if found.Some? {
      EmitCorresponds(h, k, s, r, Kick(found.value));
    }
  }

  lemma SelectCorresponds(h: Host, k: Host, s: State, r: State, t: Task, cpu: Cpu, idle: bool, storage: bool)
    requires SameHost(h, k) && Corresponds(h, k, s, r) && cpu < |s.cpus|
    ensures Corresponds(h, k, SelectCpu(h, s, t, cpu, idle, storage), SelectCpu(k, r, t, cpu, idle, storage))
  {
    SameClasses(h, k, s, r, t);
    var s1, r1 := Remember(h, s, t, storage), Remember(k, r, t, storage);
    assert Corresponds(h, k, s1, r1);
    if idle {
      EmitCorresponds(h, k, s1, r1, InsertLocal(t, cpu, SliceFor(h, ClassOf(h, s, t))));
    } else {
      KickCorresponds(h, k, s1, r1);
    }
  }

  lemma {:induction false} FirstForCorresponds(h: Host, k: Host, q: seq<Task>, cpu: Cpu, from: nat)
    requires h.may == k.may && from <= |q|
    ensures FirstFor(h, q, cpu, from) == FirstFor(k, q, cpu, from)
    decreases |q| - from
  {
    if from != |q| {
      FirstForCorresponds(h, k, q, cpu, from + 1);
    }
  }

  lemma MoveCorresponds(h: Host, k: Host, s: State, r: State, dsq: DsqId, cpu: Cpu)
    requires SameHost(h, k) && Corresponds(h, k, s, r) && cpu < |s.cpus| && dsq in s.dsqs
    requires CanMove(h, s, dsq, cpu)
    ensures var id := MapId(h.policy, k.policy, dsq);
            id in r.dsqs && CanMove(k, r, id, cpu)
            && Corresponds(h, k, MoveToLocal(h, s, dsq, cpu), MoveToLocal(k, r, id, cpu))
  {
    var id := MapId(h.policy, k.policy, dsq);
    FirstForCorresponds(h, k, s.dsqs[dsq], cpu, 0);
    MoveShape(h, s, dsq, cpu);
    MoveShape(k, r, id, cpu);
    var q := s.dsqs[dsq];
    EmitCorresponds(h, k, s, r, Move(q[FirstFor(h, q, cpu).value], dsq, cpu));
  }

  lemma BalanceCorresponds(h: Host, k: Host, s: State, r: State, cpu: Cpu)
    requires SameHost(h, k) && Corresponds(h, k, s, r) && Enabled(h, s, Balance(cpu))
    ensures Enabled(k, r, Balance(cpu))
    ensures Corresponds(h, k, Step(h, s, Balance(cpu)), Step(k, r, Balance(cpu)))
  {
    FirstForCorresponds(h, k, s.dsqs[Global], cpu, 0);
    FirstForCorresponds(h, k, s.dsqs[h.policy.fgDsq], cpu, 0);
    FirstForCorresponds(h, k, s.dsqs[h.policy.bgDsq], cpu, 0);
    if CanMove(h, s, Global, cpu) {
      MoveCorresponds(h, k, s, r, Global, cpu);
    } else if h.policy.fgDsq != Global && CanMove(h, s, h.policy.fgDsq, cpu) {
      MoveCorresponds(h, k, s, r, h.policy.fgDsq, cpu);
    } else if CanMove(h, s, h.policy.bgDsq, cpu) {
      MoveCorresponds(h, k, s, r, h.policy.bgDsq, cpu);
    }
  }

  lemma SwitchInCorresponds(h: Host, k: Host, s: State, r: State, cpu: Cpu, storage: bool)
    requires SameHost(h, k) && Corresponds(h, k, s, r) && cpu < |s.cpus| && s.cpus[cpu].local != []
    ensures Corresponds(h, k, SwitchIn(h, s, cpu, storage), SwitchIn(k, r, cpu, storage))
  {
    var local := s.cpus[cpu].local;
    var cpus := s.cpus[cpu := CpuState(Some(local[0]), s.clock, local[1..])];
    SameClasses(h, k, s.(cpus := cpus), r.(cpus := cpus), local[0]);
  }

  lemma SwitchOutCorresponds(h: Host, k: Host, s: State, r: State, cpu: Cpu, storage: bool)
    requires SameHost(h, k) && Corresponds(h, k, s, r) && cpu < |s.cpus| && s.cpus[cpu].current.Some?
    ensures Corresponds(h, k, SwitchOut(h, s, cpu, storage), SwitchOut(k, r, cpu, storage))
  {
    SameClasses(h, k, s, r, s.cpus[cpu].current.value);
  }

  lemma WakeCorresponds(h: Host, k: Host, s: State, r: State, e: Event)
    requires SameHost(h, k) && Corresponds(h, k, s, r) && e.Wake? && Enabled(h, s, e) && Enabled(k, r, e)
    ensures Corresponds(h, k, Step(h, s, e), Step(k, r, e))
  {
    var s0, r0 := s.(runnable := s.runnable + {e.task}), r.(runnable := r.runnable + {e.task});
    SelectCorresponds(h, k, s0, r0, e.task, e.cpu, e.idle, e.storage);
    if !e.idle {
      EnqueueCorresponds(h, k, SelectCpu(h, s0, e.task, e.cpu, e.idle, e.storage),
                         SelectCpu(k, r0, e.task, e.cpu, e.idle, e.storage), e.task, e.storage2);
    }
  }

  lemma StopCorresponds(h: Host, k: Host, s: State, r: State, e: Event)
    requires SameHost(h, k) && Corresponds(h, k, s, r) && e.Stop? && Enabled(h, s, e) && Enabled(k, r, e)
    ensures Corresponds(h, k, Step(h, s, e), Step(k, r, e))
  {
    SwitchOutCorresponds(h, k, s, r, e.cpu, e.storage);
    EnqueueCorresponds(h, k, SwitchOut(h, s, e.cpu, e.storage), SwitchOut(k, r, e.cpu, e.storage),
                       s.cpus[e.cpu].current.value, e.storage2);
  }

  lemma StepCorresponds(h: Host, k: Host, s: State, r: State, e: Event)
    requires SameHost(h, k) && Corresponds(h, k, s, r)
    ensures Enabled(h, s, e) <==> Enabled(k, r, e)
    ensures Enabled(h, s, e) ==> Corresponds(h, k, Step(h, s, e), Step(k, r, e))
  {
    if Enabled(h, s, e) {
      match e
      case Wake(_, _, _, _, _) =>
        WakeCorresponds(h, k, s, r, e);
      case Balance(cpu) =>
        BalanceCorresponds(h, k, s, r, cpu);
      case Start(cpu, storage) =>
        SwitchInCorresponds(h, k, s, r, cpu, storage);
      case Stop(_, _, _, _) =>
        StopCorresponds(h, k, s, r, e);
      case Rename(_, _) =>
      case Tick(_) =>
    }
  }

  lemma {:induction false} RunCorresponds(h: Host, k: Host, s: State, r: State, es: seq<Event>)
    requires SameHost(h, k) && Corresponds(h, k, s, r)
    ensures Feasible(h, s, es) <==> Feasible(k, r, es)
    ensures Feasible(h, s, es) ==> Corresponds(h, k, Run(h, s, es), Run(k, r, es))
    decreases |es|
  {
    if es != [] {
      StepCorresponds(h, k, s, r, es[0]);
      if Enabled(h, s, es[0]) {
        RunCorresponds(h, k, Step(h, s, es[0]), Step(k, r, es[0]), es[1..]);
      }
    }
  }

  /** Same schedules, corresponding states and logs, from the start. */
  ghost predicate TraceEquivalent(h: Host, k: Host) {
    h.Valid() && k.Valid() && forall es: seq<Event> ::
      (Feasible(h, Init(h), es) <==> Feasible(k, Init(k), es))
      && (Feasible(h, Init(h), es) ==> Corresponds(h, k, Run(h, Init(h), es), Run(k, Init(k), es)))
  }

  lemma SameHostsAreTraceEquivalent(h: Host, k: Host)
    requires SameHost(h, k)
    ensures TraceEquivalent(h, k)
  {
    forall es: seq<Event> {
      RunCorresponds(h, k, Init(h), Init(k), es);
    }
  }

  /** With the same queue numbers corresponding states are equal, logs included. */
  lemma SameNumbersSameStates(h: Host, k: Host, s: State, r: State)
    requires Corresponds(h, k, s, r)
    requires h.policy.fgDsq == k.policy.fgDsq && h.policy.bgDsq == k.policy.bgDsq
    ensures r == s
  {
    forall i | 0 <= i < |s.log|
      ensures MapEffect(h.policy, k.policy, s.log[i]) == s.log[i]
    {
    }
    assert MapLog(h.policy, k.policy, s.log) == s.log;
    assert r.dsqs == s.dsqs;
  }
}
