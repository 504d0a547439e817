/**
 No task is lost or duplicated: in every reachable state each runnable task is in exactly
 one place (the running slot or the local queue of one CPU, or one of the shared queues),
 and nothing else is in any place.
 */
module Conservation {
  import opened Wrappers
  import opened Machine

  function Count(q: seq<Task>, t: Task): nat {
    multiset(q)[t]
  }

  function OnCpu(c: CpuState, t: Task): nat {
    Count(c.local, t) + if c.current == Some(t) then 1 else 0
  }

  function OnCpus(cpus: seq<CpuState>, t: Task): nat {
    if cpus == [] then 0 else OnCpu(cpus[0], t) + OnCpus(cpus[1..], t)
  }

  function InDsqs(h: Host, dsqs: map<DsqId, seq<Task>>, t: Task): nat
    requires dsqs.Keys == {Global, h.policy.fgDsq, h.policy.bgDsq}
  {
    Count(dsqs[h.policy.bgDsq], t) + Count(dsqs[Global], t)
    + if h.policy.fgDsq == Global then 0 else Count(dsqs[h.policy.fgDsq], t)
  }

  /** In how many places the task is. */
  ghost function Places(h: Host, s: State, t: Task): nat
    requires Shaped(h, s)
  {
    OnCpus(s.cpus, t) + InDsqs(h, s.dsqs, t)
  }

  ghost predicate Conserved(h: Host, s: State)
    requires Shaped(h, s)
  {
    forall t :: Places(h, s, t) == if t in s.runnable then 1 else 0
  }

  lemma {:induction false} OnCpusUpdate(cpus: seq<CpuState>, i: nat, c: CpuState, t: Task)
    requires i < |cpus|
    ensures OnCpus(cpus[i := c], t) + OnCpu(cpus[i], t) == OnCpus(cpus, t) + OnCpu(c, t)
  {
    if i == 0 {
      assert cpus[0 := c][1..] == cpus[1..];
    } else {
      assert cpus[i := c][1..] == cpus[1..][i - 1 := c];
      OnCpusUpdate(cpus[1..], i - 1, c, t);
    }
  }

  lemma {:induction false} EmptyCpusHoldNothing(cpus: seq<CpuState>, t: Task)
    requires forall i :: 0 <= i < |cpus| ==> cpus[i].current.None? && cpus[i].local == []
    ensures OnCpus(cpus, t) == 0
  {
    if cpus != [] {
      EmptyCpusHoldNothing(cpus[1..], t);
    }
  }

  lemma InitConserved(h: Host)
    requires h.Valid()
    ensures Conserved(h, Init(h))
  {
    forall t {
      EmptyCpusHoldNothing(Init(h).cpus, t);
    }
  }

  lemma CountWithout(q: seq<Task>, i: nat, t: Task)
    requires i < |q|
    ensures Count(q, t) == Count(Without(q, i), t) + if q[i] == t then 1 else 0
  {
    assert q == q[..i] + [q[i]] + q[i + 1..];
  }

  lemma InsertPlaces(h: Host, s: State, u: Task, dsq: DsqId, slice: nat, t: Task)
    requires Shaped(h, s) && dsq in s.dsqs && (h.policy.fgDsq != Global ==> dsq != Global)
    ensures Shaped(h, InsertAt(s, u, dsq, slice))
    ensures Places(h, InsertAt(s, u, dsq, slice), t) == Places(h, s, t) + if t == u then 1 else 0
  {
    InsertShape(h, s, u, dsq, slice);
  }

  lemma EnqueuePlaces(h: Host, s: State, u: Task, storage: bool, t: Task)
    requires Shaped(h, s)
    ensures Shaped(h, Enqueue(h, s, u, storage))
    ensures Places(h, Enqueue(h, s, u, storage), t) == Places(h, s, t) + if t == u then 1 else 0
  {
    var class_ := ClassOf(h, s, u);
    InsertPlaces(h, Remember(h, s, u, storage), u, DsqFor(h, class_), SliceFor(h, class_), t);
  }

  lemma SelectPlaces(h: Host, s: State, u: Task, cpu: Cpu, idle: bool, storage: bool, t: Task)
    requires Shaped(h, s) && cpu < |s.cpus|
    ensures Shaped(h, SelectCpu(h, s, u, cpu, idle, storage))
    ensures Places(h, SelectCpu(h, s, u, cpu, idle, storage), t)
         == Places(h, s, t) + if idle && t == u then 1 else 0
  {
    if idle {
      var c := s.cpus[cpu];
      OnCpusUpdate(s.cpus, cpu, c.(local := c.local + [u]), t);
    }
  }

  lemma MovePlaces(h: Host, s: State, dsq: DsqId, cpu: Cpu, t: Task)
    requires Shaped(h, s) && dsq in s.dsqs && cpu < |s.cpus| && CanMove(h, s, dsq, cpu)
    ensures Shaped(h, MoveToLocal(h, s, dsq, cpu))
    ensures Places(h, MoveToLocal(h, s, dsq, cpu), t) == Places(h, s, t)
  {
    MoveShape(h, s, dsq, cpu);
    var q, c := s.dsqs[dsq], s.cpus[cpu];
    var i := FirstFor(h, q, cpu).value;
    CountWithout(q, i, t);
    OnCpusUpdate(s.cpus, cpu, c.(local := c.local + [q[i]]), t);
  }

  lemma BalancePlaces(h: Host, s: State, cpu: Cpu, t: Task)
    requires Shaped(h, s) && Enabled(h, s, Balance(cpu))
    ensures Shaped(h, Step(h, s, Balance(cpu)))
    ensures Places(h, Step(h, s, Balance(cpu)), t) == Places(h, s, t)
  {
    if CanMove(h, s, Global, cpu) {
      MovePlaces(h, s, Global, cpu, t);
    } else if h.policy.fgDsq != Global && CanMove(h, s, h.policy.fgDsq, cpu) {
      MovePlaces(h, s, h.policy.fgDsq, cpu, t);
    } else if CanMove(h, s, h.policy.bgDsq, cpu) {
      MovePlaces(h, s, h.policy.bgDsq, cpu, t);
    }
  }

  lemma SwitchInPlaces(h: Host, s: State, cpu: Cpu, storage: bool, t: Task)
    requires Shaped(h, s) && Enabled(h, s, Start(cpu, storage))
    ensures Shaped(h, SwitchIn(h, s, cpu, storage))
    ensures Places(h, SwitchIn(h, s, cpu, storage), t) == Places(h, s, t)
  {
    var local := s.cpus[cpu].local;
    var next := CpuState(Some(local[0]), s.clock, local[1..]);
    HeadMoves(s.cpus[cpu], next, t);
    OnCpusUpdate(s.cpus, cpu, next, t);
  }

  lemma HeadMoves(c: CpuState, next: CpuState, t: Task)
    requires c.current.None? && c.local != [] && next.current == Some(c.local[0]) && next.local == c.local[1..]
    ensures OnCpu(next, t) == OnCpu(c, t)
  {
    assert c.local == [c.local[0]] + c.local[1..];
  }

  lemma SwitchOutPlaces(h: Host, s: State, cpu: Cpu, storage: bool, t: Task)
    requires Shaped(h, s) && cpu < |s.cpus| && s.cpus[cpu].current.Some?
    ensures Shaped(h, SwitchOut(h, s, cpu, storage))
    ensures Places(h, SwitchOut(h, s, cpu, storage), t)
            + (if s.cpus[cpu].current == Some(t) then 1 else 0) == Places(h, s, t)
  {
    OnCpusUpdate(s.cpus, cpu, s.cpus[cpu].(current := None), t);
  }

  predicate Wakes(e: Event, t: Task) {
    e.Wake? && e.task == t
  }

  predicate Blocks(s: State, e: Event, t: Task)
    requires e.Stop? ==> e.cpu < |s.cpus|
  {
    e.Stop? && !e.runnable && s.cpus[e.cpu].current == Some(t)
  }

  lemma WakePlaces(h: Host, s: State, e: Event, t: Task)
    requires Shaped(h, s) && Enabled(h, s, e) && e.Wake?
    ensures Shaped(h, Step(h, s, e))
    ensures Places(h, Step(h, s, e), t) == Places(h, s, t) + if e.task == t then 1 else 0
    ensures Step(h, s, e).runnable == s.runnable + {e.task}
  {
    var s0 := s.(runnable := s.runnable + {e.task});
    assert Places(h, s0, t) == Places(h, s, t);
    SelectPlaces(h, s0, e.task, e.cpu, e.idle, e.storage, t);
    if !e.idle {
      EnqueuePlaces(h, SelectCpu(h, s0, e.task, e.cpu, e.idle, e.storage), e.task, e.storage2, t);
    }
  }

  lemma YieldPlaces(h: Host, s: State, e: Event, t: Task)
    requires Shaped(h, s) && Enabled(h, s, e) && e.Stop? && e.runnable
    ensures Shaped(h, Step(h, s, e))
    ensures Places(h, Step(h, s, e), t) == Places(h, s, t)
    ensures Step(h, s, e).runnable == s.runnable
  {
    SwitchOutPlaces(h, s, e.cpu, e.storage, t);
    EnqueuePlaces(h, SwitchOut(h, s, e.cpu, e.storage), s.cpus[e.cpu].current.value, e.storage2, t);
  }

  lemma BlockPlaces(h: Host, s: State, e: Event, t: Task)
    requires Shaped(h, s) && Enabled(h, s, e) && e.Stop? && !e.runnable
    ensures Shaped(h, Step(h, s, e))
    ensures Places(h, Step(h, s, e), t) + (if s.cpus[e.cpu].current == Some(t) then 1 else 0) == Places(h, s, t)
    ensures Step(h, s, e).runnable == s.runnable - {s.cpus[e.cpu].current.value}
  {
    SwitchOutPlaces(h, s, e.cpu, e.storage, t);
  }

  /** How one event changes the places and the runnable set, for one task. */
  lemma StepPlaces(h: Host, s: State, e: Event, t: Task)
    requires Shaped(h, s) && Enabled(h, s, e)
    ensures Shaped(h, Step(h, s, e))
    ensures Places(h, Step(h, s, e), t) + (if Blocks(s, e, t) then 1 else 0)
         == Places(h, s, t) + (if Wakes(e, t) then 1 else 0)
    ensures t in Step(h, s, e).runnable <==> Wakes(e, t) || (t in s.runnable && !Blocks(s, e, t))
  {
    match e
    case Wake(_, _, _, _, _) =>
      WakePlaces(h, s, e, t);
    case Balance(cpu) =>
      BalancePlaces(h, s, cpu, t);
    case Start(cpu, storage) =>
      SwitchInPlaces(h, s, cpu, storage, t);
    case Stop(_, _, _, _) =>
      if e.runnable {
        YieldPlaces(h, s, e, t);
      } else {
        BlockPlaces(h, s, e, t);
      }
    case Rename(_, _) =>
    case Tick(_) =>
  }

  lemma {:induction false} CurrentIsPlaced(cpus: seq<CpuState>, cpu: Cpu)
    requires cpu < |cpus| && cpus[cpu].current.Some?
    ensures OnCpus(cpus, cpus[cpu].current.value) >= 1
  {
    if cpu > 0 {
      CurrentIsPlaced(cpus[1..], cpu - 1);
    }
  }

  lemma StepConserves(h: Host, s: State, e: Event)
    requires Shaped(h, s) && Enabled(h, s, e) && Conserved(h, s)
    ensures Shaped(h, Step(h, s, e)) && Conserved(h, Step(h, s, e))
  {
    StepShape(h, s, e);
    if e.Stop? {
      CurrentIsPlaced(s.cpus, e.cpu);
    }
    forall t
      ensures Places(h, Step(h, s, e), t) == if t in Step(h, s, e).runnable then 1 else 0
    {
      StepPlaces(h, s, e, t);
    }
  }

  lemma {:induction false} RunConserves(h: Host, s: State, es: seq<Event>)
    requires Shaped(h, s) && Feasible(h, s, es) && Conserved(h, s)
    ensures Conserved(h, Run(h, s, es))
    decreases |es|
  {
    if es != [] {
      StepConserves(h, s, es[0]);
      RunConserves(h, Step(h, s, es[0]), es[1..]);
    }
  }

  /**
   Conservation over every run of every policy, whatever is renamed and whether or not
   storage can be had: a runnable task is in exactly one place, any other task in none.
   */
  lemma EveryRunConserves(h: Host, es: seq<Event>, t: Task)
    requires h.Valid() && Feasible(h, Init(h), es)
    ensures var s := Run(h, Init(h), es);
            Places(h, s, t) == if t in s.runnable then 1 else 0
  {
    InitConserved(h);
    RunConserves(h, Init(h), es);
  }
}
