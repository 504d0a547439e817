/**
 The scheduler's records against the kernel's state: the per-CPU flags say which CPUs run a
 background task and since when, and the two queues hold tasks of the right kind.

 Under arbitrary renames the flags are exact in every state of a run if and only if no
 rename changes the kind of a task while it runs on a tracked CPU, and the queues are pure
 if and only if none does so while the task is queued. The caching scheduler never meets
 such a rename as long as task storage can be had.
 */
module Tracking {
  import opened Wrappers
  import opened Comm
  import opened Machine
  import opened Conservation
  import opened Scenarios

  predicate RunsHog(h: Host, s: State, cpu: Cpu) {
    cpu < |s.cpus| && s.cpus[cpu].current.Some? && ClassOf(h, s, s.cpus[cpu].current.value) == Hog
  }

  ghost predicate FlagExact(h: Host, s: State, cpu: Cpu)
    requires Shaped(h, s) && cpu < MAX_CPUS
  {
    && s.bgRunning[cpu] == (if RunsHog(h, s, cpu) then 1 else 0)
    && (RunsHog(h, s, cpu) ==> s.bgStart[cpu] == s.cpus[cpu].since <= s.clock)
  }

  ghost predicate FlagsExact(h: Host, s: State)
    requires Shaped(h, s)
  {
    h.policy.preempts ==> forall cpu :: 0 <= cpu < MAX_CPUS ==> FlagExact(h, s, cpu)
  }

  ghost predicate QueuesPure(h: Host, s: State)
    requires Shaped(h, s)
  {
    && (forall t <- s.dsqs[h.policy.bgDsq] :: ClassOf(h, s, t) == Hog)
    && (forall t <- s.dsqs[h.policy.fgDsq] :: ClassOf(h, s, t) != Hog)
  }

  // ----- the renames that matter

  /** A rename that turns its task from background to not, or back. */
  predicate ChangesKind(h: Host, s: State, e: Event) {
    e.Rename? && (ClassOf(h, s, e.task) == Hog)
                 != (ClassOf(h, s.(comm := s.comm[e.task := e.comm]), e.task) == Hog)
  }

  /** The task runs on a CPU whose flag is kept. */
  ghost predicate RunsTracked(h: Host, s: State, t: Task) {
    h.policy.preempts && exists cpu: nat :: cpu < MAX_CPUS && cpu < |s.cpus| && s.cpus[cpu].current == Some(t)
  }

  predicate Queued(h: Host, s: State, t: Task)
    requires h.policy.fgDsq in s.dsqs && h.policy.bgDsq in s.dsqs
  {
    t in s.dsqs[h.policy.bgDsq] || t in s.dsqs[h.policy.fgDsq]
  }

  ghost predicate FlipsRunning(h: Host, s: State, e: Event) {
    ChangesKind(h, s, e) && RunsTracked(h, s, e.task)
  }

  ghost predicate FlipsQueued(h: Host, s: State, e: Event)
    requires Shaped(h, s)
  {
    ChangesKind(h, s, e) && Queued(h, s, e.task)
  }

  // ----- one event and the flags

  /** Nothing that the flags speak about differs. */
  ghost predicate SameFlags(h: Host, s: State, r: State) {
    && r.bgRunning == s.bgRunning && r.bgStart == s.bgStart && s.clock <= r.clock && |r.cpus| == |s.cpus|
    && (forall c :: 0 <= c < |s.cpus| ==> r.cpus[c].current == s.cpus[c].current && r.cpus[c].since == s.cpus[c].since)
    && forall t :: ClassOf(h, r, t) == ClassOf(h, s, t)
  }

  lemma SameFlagsExact(h: Host, s: State, r: State)
    requires Shaped(h, s) && Shaped(h, r) && FlagsExact(h, s) && SameFlags(h, s, r)
    ensures FlagsExact(h, r)
  {
    forall c | 0 <= c < MAX_CPUS && h.policy.preempts
      ensures FlagExact(h, r, c)
    {
      assert FlagExact(h, s, c);
    }
  }

  lemma EnqueueFlags(h: Host, s: State, t: Task, storage: bool)
    requires Shaped(h, s)
    ensures Shaped(h, Enqueue(h, s, t, storage)) && SameFlags(h, s, Enqueue(h, s, t, storage))
  {
    EnqueueShape(h, s, t, storage);
    EnqueueKeepsClasses(h, s, t, storage);
  }

  lemma WakeFlags(h: Host, s: State, e: Event)
    requires Shaped(h, s) && Enabled(h, s, e) && e.Wake?
    ensures Shaped(h, Step(h, s, e)) && SameFlags(h, s, Step(h, s, e))
  {
    var s0 := s.(runnable := s.runnable + {e.task});
    SelectKeepsClasses(h, s0, e.task, e.cpu, e.idle, e.storage);
    assert forall t :: ClassOf(h, s0, t) == ClassOf(h, s, t);
    if !e.idle {
      EnqueueFlags(h, SelectCpu(h, s0, e.task, e.cpu, e.idle, e.storage), e.task, e.storage2);
    }
  }

  lemma MoveFlags(h: Host, s: State, dsq: DsqId, cpu: Cpu)
    requires Shaped(h, s) && dsq in s.dsqs && cpu < |s.cpus| && CanMove(h, s, dsq, cpu)
    ensures Shaped(h, MoveToLocal(h, s, dsq, cpu)) && SameFlags(h, s, MoveToLocal(h, s, dsq, cpu))
  {
    MoveShape(h, s, dsq, cpu);
  }

  lemma BalanceFlags(h: Host, s: State, cpu: Cpu)
    requires Shaped(h, s) && Enabled(h, s, Balance(cpu))
    ensures Shaped(h, Step(h, s, Balance(cpu))) && SameFlags(h, s, Step(h, s, Balance(cpu)))
  {
    if CanMove(h, s, Global, cpu) {
      MoveFlags(h, s, Global, cpu);
    } else if h.policy.fgDsq != Global && CanMove(h, s, h.policy.fgDsq, cpu) {
      MoveFlags(h, s, h.policy.fgDsq, cpu);
    } else if CanMove(h, s, h.policy.bgDsq, cpu) {
      MoveFlags(h, s, h.policy.bgDsq, cpu);
    }
  }

  lemma SwitchInFlags(h: Host, s: State, cpu: Cpu, storage: bool)
    requires Shaped(h, s) && FlagsExact(h, s) && Enabled(h, s, Start(cpu, storage))
    ensures Shaped(h, SwitchIn(h, s, cpu, storage)) && FlagsExact(h, SwitchIn(h, s, cpu, storage))
  {
    var r := SwitchIn(h, s, cpu, storage);
    SwitchInKeepsClasses(h, s, cpu, storage);
    forall c | 0 <= c < MAX_CPUS && h.policy.preempts
      ensures FlagExact(h, r, c)
    {
      assert FlagExact(h, s, c);
    }
  }

  lemma SwitchOutFlags(h: Host, s: State, cpu: Cpu, storage: bool)
    requires Shaped(h, s) && FlagsExact(h, s) && cpu < |s.cpus| && s.cpus[cpu].current.Some?
    ensures Shaped(h, SwitchOut(h, s, cpu, storage)) && FlagsExact(h, SwitchOut(h, s, cpu, storage))
  {
    var r := SwitchOut(h, s, cpu, storage);
    SwitchOutKeepsClasses(h, s, cpu, storage);
    forall c | 0 <= c < MAX_CPUS && h.policy.preempts
      ensures FlagExact(h, r, c)
    {
      assert FlagExact(h, s, c);
    }
  }

  lemma StopFlags(h: Host, s: State, e: Event)
    requires Shaped(h, s) && Enabled(h, s, e) && FlagsExact(h, s) && e.Stop?
    ensures Shaped(h, Step(h, s, e)) && FlagsExact(h, Step(h, s, e))
  {
    SwitchOutFlags(h, s, e.cpu, e.storage);
    var s1 := SwitchOut(h, s, e.cpu, e.storage);
    if e.runnable {
      EnqueueFlags(h, s1, s.cpus[e.cpu].current.value, e.storage2);
    }
    SameFlagsExact(h, s1, Step(h, s, e));
  }

  lemma RenameFlags(h: Host, s: State, e: Event)
    requires Shaped(h, s) && FlagsExact(h, s) && e.Rename? && !FlipsRunning(h, s, e)
    ensures Shaped(h, Step(h, s, e)) && FlagsExact(h, Step(h, s, e))
  {
    var r := Step(h, s, e);
    assert forall u :: u != e.task ==> ClassOf(h, r, u) == ClassOf(h, s, u);
    forall c | 0 <= c < MAX_CPUS && h.policy.preempts
      ensures FlagExact(h, r, c)
    {
      assert FlagExact(h, s, c);
    }
  }

  /** Every event but a rename of a running task that changes its kind keeps the flags exact. */
  lemma StepKeepsFlags(h: Host, s: State, e: Event)
    requires Shaped(h, s) && Enabled(h, s, e) && FlagsExact(h, s) && !FlipsRunning(h, s, e)
    ensures Shaped(h, Step(h, s, e)) && FlagsExact(h, Step(h, s, e))
  {
    match e
    case Wake(_, _, _, _, _) =>
      WakeFlags(h, s, e);
      SameFlagsExact(h, s, Step(h, s, e));
    case Balance(cpu) =>
      BalanceFlags(h, s, cpu);
      SameFlagsExact(h, s, Step(h, s, e));
    case Start(cpu, storage) =>
      SwitchInFlags(h, s, cpu, storage);
    case Stop(_, _, _, _) =>
      StopFlags(h, s, e);
    case Rename(_, _) =>
      RenameFlags(h, s, e);
    case Tick(_) =>
      SameFlagsExact(h, s, Step(h, s, e));
  }

  lemma FlipBreaksFlags(h: Host, s: State, e: Event)
    requires Shaped(h, s) && FlagsExact(h, s) && FlipsRunning(h, s, e)
    ensures Shaped(h, Step(h, s, e)) && !FlagsExact(h, Step(h, s, e))
  {
    var cpu: nat :| cpu < MAX_CPUS && cpu < |s.cpus| && s.cpus[cpu].current == Some(e.task);
    assert FlagExact(h, s, cpu);
    assert !FlagExact(h, Step(h, s, e), cpu);
  }

  // ----- one event and the queues

  /** Every task in a queue was in it before or is of the queue's kind; no class differs. */
  ghost predicate AddsPure(h: Host, s: State, r: State)
    requires Shaped(h, s) && Shaped(h, r)
  {
    && (forall t <- r.dsqs[h.policy.bgDsq] :: t in s.dsqs[h.policy.bgDsq] || ClassOf(h, s, t) == Hog)
    && (forall t <- r.dsqs[h.policy.fgDsq] :: t in s.dsqs[h.policy.fgDsq] || ClassOf(h, s, t) != Hog)
    && forall t :: ClassOf(h, r, t) == ClassOf(h, s, t)
  }

  lemma EnqueueAdds(h: Host, s: State, t: Task, storage: bool)
    requires Shaped(h, s)
    ensures Shaped(h, Enqueue(h, s, t, storage)) && AddsPure(h, s, Enqueue(h, s, t, storage))
  {
    EnqueueShape(h, s, t, storage);
    EnqueueKeepsClasses(h, s, t, storage);
  }

  lemma WakeAdds(h: Host, s: State, e: Event)
    requires Shaped(h, s) && Enabled(h, s, e) && e.Wake?
    ensures Shaped(h, Step(h, s, e)) && AddsPure(h, s, Step(h, s, e))
  {
    var s0 := s.(runnable := s.runnable + {e.task});
    SelectKeepsClasses(h, s0, e.task, e.cpu, e.idle, e.storage);
    assert forall t :: ClassOf(h, s0, t) == ClassOf(h, s, t);
    if !e.idle {
      EnqueueAdds(h, SelectCpu(h, s0, e.task, e.cpu, e.idle, e.storage), e.task, e.storage2);
    }
  }

  lemma MoveAdds(h: Host, s: State, dsq: DsqId, cpu: Cpu)
    requires Shaped(h, s) && dsq in s.dsqs && cpu < |s.cpus| && CanMove(h, s, dsq, cpu)
    ensures Shaped(h, MoveToLocal(h, s, dsq, cpu)) && AddsPure(h, s, MoveToLocal(h, s, dsq, cpu))
  {
    MoveShape(h, s, dsq, cpu);
    assert forall u :: u in MoveToLocal(h, s, dsq, cpu).dsqs[dsq] ==> u in s.dsqs[dsq];
  }

  lemma BalanceAdds(h: Host, s: State, cpu: Cpu)
    requires Shaped(h, s) && Enabled(h, s, Balance(cpu))
    ensures Shaped(h, Step(h, s, Balance(cpu))) && AddsPure(h, s, Step(h, s, Balance(cpu)))
  {
    if CanMove(h, s, Global, cpu) {
      MoveAdds(h, s, Global, cpu);
    } else if h.policy.fgDsq != Global && CanMove(h, s, h.policy.fgDsq, cpu) {
      MoveAdds(h, s, h.policy.fgDsq, cpu);
    } else if CanMove(h, s, h.policy.bgDsq, cpu) {
      MoveAdds(h, s, h.policy.bgDsq, cpu);
    }
  }

  lemma StopAdds(h: Host, s: State, e: Event)
    requires Shaped(h, s) && Enabled(h, s, e) && e.Stop?
    ensures Shaped(h, Step(h, s, e)) && AddsPure(h, s, Step(h, s, e))
  {
    SwitchOutKeepsClasses(h, s, e.cpu, e.storage);
    if e.runnable {
      EnqueueAdds(h, SwitchOut(h, s, e.cpu, e.storage), s.cpus[e.cpu].current.value, e.storage2);
    }
  }

  /** Every event but a rename of a queued task that changes its kind keeps the queues pure. */
  lemma StepKeepsPure(h: Host, s: State, e: Event)
    requires Shaped(h, s) && Enabled(h, s, e) && QueuesPure(h, s) && !FlipsQueued(h, s, e)
    ensures Shaped(h, Step(h, s, e)) && QueuesPure(h, Step(h, s, e))
  {
    match e
    case Wake(_, _, _, _, _) =>
      WakeAdds(h, s, e);
    case Balance(cpu) =>
      BalanceAdds(h, s, cpu);
    case Stop(_, _, _, _) =>
      StopAdds(h, s, e);
    case Start(cpu, storage) =>
      SwitchInKeepsClasses(h, s, cpu, storage);
    case Rename(t, _) =>
      assert forall u :: u != t ==> ClassOf(h, Step(h, s, e), u) == ClassOf(h, s, u);
    case Tick(_) =>
      assert forall u :: ClassOf(h, Step(h, s, e), u) == ClassOf(h, s, u);
  }

  lemma FlipBreaksPure(h: Host, s: State, e: Event)
    requires Shaped(h, s) && QueuesPure(h, s) && FlipsQueued(h, s, e)
    ensures Shaped(h, Step(h, s, e)) && !QueuesPure(h, Step(h, s, e))
  {
    assert Step(h, s, e).dsqs == s.dsqs;
  }

  // ----- runs

  ghost predicate AlwaysFlagsExact(h: Host, s: State, es: seq<Event>)
    requires Shaped(h, s) && Feasible(h, s, es)
    decreases |es|
  {
    FlagsExact(h, s) && (es != [] ==> (StepShape(h, s, es[0]); AlwaysFlagsExact(h, Step(h, s, es[0]), es[1..])))
  }

  ghost predicate NeverFlipsRunning(h: Host, s: State, es: seq<Event>)
    requires Shaped(h, s) && Feasible(h, s, es)
    decreases |es|
  {
    es != [] ==>
      !FlipsRunning(h, s, es[0]) && (StepShape(h, s, es[0]); NeverFlipsRunning(h, Step(h, s, es[0]), es[1..]))
  }

  ghost predicate AlwaysPure(h: Host, s: State, es: seq<Event>)
    requires Shaped(h, s) && Feasible(h, s, es)
    decreases |es|
  {
    QueuesPure(h, s) && (es != [] ==> (StepShape(h, s, es[0]); AlwaysPure(h, Step(h, s, es[0]), es[1..])))
  }

  ghost predicate NeverFlipsQueued(h: Host, s: State, es: seq<Event>)
    requires Shaped(h, s) && Feasible(h, s, es)
    decreases |es|
  {
    es != [] ==>
      !FlipsQueued(h, s, es[0]) && (StepShape(h, s, es[0]); NeverFlipsQueued(h, Step(h, s, es[0]), es[1..]))
  }

  /**
   From exact flags, the flags are exact in every state of a run if and only if no event of
   the run flips a task that runs on a tracked CPU; queued tasks may be renamed at will.
   */
  lemma {:induction false} FlagsExactIff(h: Host, s: State, es: seq<Event>)
    requires Shaped(h, s) && Feasible(h, s, es) && FlagsExact(h, s)
    ensures AlwaysFlagsExact(h, s, es) <==> NeverFlipsRunning(h, s, es)
    decreases |es|
  {
    if es != [] {
      if FlipsRunning(h, s, es[0]) {
        FlipBreaksFlags(h, s, es[0]);
      } else {
        StepKeepsFlags(h, s, es[0]);
        FlagsExactIff(h, Step(h, s, es[0]), es[1..]);
      }
    }
  }

  /** The same of the queues and the renames of queued tasks. */
  lemma {:induction false} QueuesPureIff(h: Host, s: State, es: seq<Event>)
    requires Shaped(h, s) && Feasible(h, s, es) && QueuesPure(h, s)
    ensures AlwaysPure(h, s, es) <==> NeverFlipsQueued(h, s, es)
    decreases |es|
  {
    if es != [] {
      if FlipsQueued(h, s, es[0]) {
        FlipBreaksPure(h, s, es[0]);
      } else {
        StepKeepsPure(h, s, es[0]);
        QueuesPureIff(h, Step(h, s, es[0]), es[1..]);
      }
    }
  }

  lemma InitExact(h: Host)
    requires h.Valid()
    ensures FlagsExact(h, Init(h)) && QueuesPure(h, Init(h))
  {
  }

  /** Both, for the runs of the scheduler from its start. */
  lemma RecordsAgreeWithKernel(h: Host, es: seq<Event>)
    requires h.Valid() && Feasible(h, Init(h), es)
    ensures AlwaysFlagsExact(h, Init(h), es) <==> NeverFlipsRunning(h, Init(h), es)
    ensures AlwaysPure(h, Init(h), es) <==> NeverFlipsQueued(h, Init(h), es)
  {
    FlagsExactIff(h, Init(h), es);
    QueuesPureIff(h, Init(h), es);
  }

  lemma {:induction false} LastFlagsExact(h: Host, s: State, es: seq<Event>)
    requires Shaped(h, s) && Feasible(h, s, es) && FlagsExact(h, s) && NeverFlipsRunning(h, s, es)
    ensures FlagsExact(h, Run(h, s, es))
    decreases |es|
  {
    if es != [] {
      StepKeepsFlags(h, s, es[0]);
      LastFlagsExact(h, Step(h, s, es[0]), es[1..]);
    }
  }

  // ----- the caching scheduler

  /** One of the callbacks of the wake-up could allocate task storage. */
  predicate StorageOk(e: Event) {
    e.Wake? ==> e.storage || (e.storage2 && !e.idle)
  }

  predicate AllStorageOk(es: seq<Event>) {
    forall i :: 0 <= i < |es| ==> StorageOk(es[i])
  }

  lemma ReliedOnIsRunnable(h: Host, s: State, t: Task)
    requires Shaped(h, s) && Conserved(h, s) && (RunsTracked(h, s, t) || Queued(h, s, t))
    ensures t in s.runnable
  {
    assert Places(h, s, t) == if t in s.runnable then 1 else 0;
    if !Queued(h, s, t) {
      var cpu: nat :| cpu < MAX_CPUS && cpu < |s.cpus| && s.cpus[cpu].current == Some(t);
      CurrentIsPlaced(s.cpus, cpu);
    }
  }

  lemma WakeCaches(h: Host, s: State, e: Event)
    requires Shaped(h, s) && Enabled(h, s, e) && h.policy.caches && StorageOk(e) && e.Wake?
    ensures Step(h, s, e).runnable == s.runnable + {e.task}
    ensures s.cache.Keys + {e.task} <= Step(h, s, e).cache.Keys
  {
    var s0 := s.(runnable := s.runnable + {e.task});
    var s1 := SelectCpu(h, s0, e.task, e.cpu, e.idle, e.storage);
    assert s1.cache == Remember(h, s0, e.task, e.storage).cache;
    if !e.idle {
      assert Step(h, s, e).cache == Remember(h, s1, e.task, e.storage2).cache;
    }
  }

  lemma StopCaches(h: Host, s: State, e: Event)
    requires Shaped(h, s) && Enabled(h, s, e) && e.Stop?
    ensures Step(h, s, e).runnable <= s.runnable && s.cache.Keys <= Step(h, s, e).cache.Keys
  {
    var t, s1 := s.cpus[e.cpu].current.value, SwitchOut(h, s, e.cpu, e.storage);
    assert s1.cache == Remember(h, s, t, e.storage).cache && s1.runnable == s.runnable;
    if e.runnable {
      assert Step(h, s, e).cache == Remember(h, s1, t, e.storage2).cache;
    }
  }

  lemma StepCaches(h: Host, s: State, e: Event)
    requires Shaped(h, s) && Enabled(h, s, e) && h.policy.caches && StorageOk(e)
    requires s.runnable <= s.cache.Keys
    ensures Step(h, s, e).runnable <= Step(h, s, e).cache.Keys
  {
    match e
    case Wake(_, _, _, _, _) => WakeCaches(h, s, e);
    case Stop(_, _, _, _) => StopCaches(h, s, e);
    case Start(_, _) =>
    case Balance(_) =>
    case Rename(_, _) =>
    case Tick(_) =>
  }

  lemma {:induction false} CachedRunsNeverFlip(h: Host, s: State, es: seq<Event>)
    requires Shaped(h, s) && Feasible(h, s, es) && Conserved(h, s)
    requires h.policy.caches && AllStorageOk(es) && s.runnable <= s.cache.Keys
    ensures NeverFlipsRunning(h, s, es) && NeverFlipsQueued(h, s, es)
    decreases |es|
  {
    if es != [] {
      var e := es[0];
      if e.Rename? && (RunsTracked(h, s, e.task) || Queued(h, s, e.task)) {
        ReliedOnIsRunnable(h, s, e.task);
      }
      StepConserves(h, s, e);
      StepCaches(h, s, e);
      CachedRunsNeverFlip(h, Step(h, s, e), es[1..]);
    }
  }

  /**
   The caching scheduler keeps its records exact through every run with renames at any
   moment, provided that each wake-up could allocate task storage in one of its callbacks.
   */
  lemma CachingSurvivesRenames(h: Host, es: seq<Event>)
    requires h.Valid() && h.policy.caches && Feasible(h, Init(h), es) && AllStorageOk(es)
    ensures AlwaysFlagsExact(h, Init(h), es) && AlwaysPure(h, Init(h), es)
  {
    InitConserved(h);
    CachedRunsNeverFlip(h, Init(h), es);
    RecordsAgreeWithKernel(h, es);
  }

  // ----- flips happen

  /** A background task is put on CPU 0 and renamed while it runs. */
  function FlipRun(front: CommRead, back: CommRead, storage: bool): seq<Event> {
    [Rename(1, front)] + [Rename(0, back)]
    + [Wake(0, 0, true, storage, storage)] + [Start(0, storage)] + [Rename(0, front)]
  }

  /**
   A run from the start after which the flag of CPU 0 is set although its task is not
   background any more. It exists for every policy that tracks its CPUs and does not cache,
   and for those that cache when there is no storage.
   */
  lemma WrongFlagIsReachable(h: Host, front: CommRead, back: CommRead, storage: bool) returns (s: State)
    requires h.Valid() && h.policy.preempts && h.nrCpus >= 1 && h.may(0, 0) && !(h.policy.caches && storage)
    requires h.policy.classify(front) != Hog && h.policy.classify(back) == Hog
    ensures EndsIn(h, Init(h), FlipRun(front, back, storage), s) && !FlagsExact(h, s)
    ensures s.bgRunning[0] == 1 && s.bgStart[0] == s.clock == 0 && !RunsHog(h, s, 0)
    ensures ClassOf(h, s, 1) == h.policy.classify(front) && s.cpus[0].current == Some(0)
  {
    var s1 := NamedPair(h, front, back);
    var s3 := OccupyCpu(h, s1, storage);
    var e1, e2, e3 := Wake(0, 0, true, storage, storage), Start(0, storage), Rename(0, front);
    var s2 := Step(h, s1, e1);
    StepKeepsFlags(h, s1, e1);
    StepKeepsFlags(h, s2, e2);
    assert FlagExact(h, s3, 0) && ClassOf(h, s1, 0) == Hog;
    s := Step(h, s3, e3);
    ThreeMore(h, Init(h), [Rename(1, front)] + [Rename(0, back)], s1, e1, s2, e2, s3, e3, s);
    assert !FlagExact(h, s, 0);
  }

  /** The same for a queued task: the background queue then holds a task that is not background. */
  lemma WrongQueueIsReachable(h: Host, front: CommRead, back: CommRead) returns (s: State, es: seq<Event>)
    requires h.Valid() && h.nrCpus >= 1
    requires h.policy.classify(front) != Hog && h.policy.classify(back) == Hog
    ensures EndsIn(h, Init(h), es, s) && !QueuesPure(h, s)
    ensures 0 in s.dsqs[h.policy.bgDsq] && ClassOf(h, s, 0) != Hog
  {
    var s1 := NamedPair(h, front, back);
    var e1, e2 := Wake(0, 0, false, false, false), Rename(0, front);
    StepShape(h, s1, e1);
    var s2 := Step(h, s1, e1);
    s := Step(h, s2, e2);
    OneEvent(h, s1, e1);
    OneEvent(h, s2, e2);
    es := [Rename(1, front)] + [Rename(0, back)];
    RunConcat(h, Init(h), es, s1, [e1], s2);
    RunConcat(h, Init(h), es + [e1], s2, [e2], s);
    es := es + [e1] + [e2];
    assert s.dsqs[h.policy.bgDsq] == [0];
    assert ClassOf(h, s, 0) != Hog;
  }
}
