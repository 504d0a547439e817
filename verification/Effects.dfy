/**
 What each event does to the outside: the inserts with their queues and time slices, the
 moves and the kicks, with the numbers of each scheduler written out.
 */
module Effects {
  import opened Wrappers
  import opened Comm
  import opened Manifest
  import opened Generator
  import opened Machine
  import opened Scenarios
  import opened Kicks
  import opened Tracking
  import opened Schedulers

  /** Queues and slices in nanoseconds of a scheduler, and whether it ever kicks. */
  datatype Numbers = Numbers(fgDsq: DsqId, bgDsq: DsqId, fgSlice: nat, bgSlice: nat, kicks: bool)

  /** At most one kick, and only for a task that may kick. */
  predicate KicksOnly(effects: seq<Effect>, allowed: bool) {
    effects == [] || (allowed && |effects| == 1 && effects[0].Kick?)
  }

  /** The insert of a task into the shared queue of its kind, with the slice of its kind. */
  predicate QueuesByKind(effect: Effect, t: Task, hog: bool, n: Numbers) {
    if hog then effect == Insert(t, n.bgDsq, n.bgSlice) else effect == Insert(t, n.fgDsq, n.fgSlice)
  }

  /** What the event adds to the log. */
  ghost predicate Adds(h: Host, s: State, e: Event, added: seq<Effect>, n: Numbers)
    requires Shaped(h, s) && Enabled(h, s, e)
  {
    match e
    case Wake(t, cpu, idle, _, _) =>
      var class_ := ClassOf(h, s, t);
      if idle then
        added == [InsertLocal(t, cpu, if class_ == Hog then n.bgSlice else n.fgSlice)]
      else
        added != [] && KicksOnly(added[..|added| - 1], n.kicks && class_ == Kicker)
        && QueuesByKind(added[|added| - 1], t, class_ == Hog, n)
    case Balance(cpu) =>
      var r := Step(h, s, e);
      if r == s then added == []
      else
        |added| == 1 && added[0].Move? && added[0].cpu == cpu && r.cpus[cpu].local == [added[0].task]
        && added[0].dsq in s.dsqs && added[0].task in s.dsqs[added[0].dsq]
    case Stop(cpu, runnable, _, _) =>
      var t := s.cpus[cpu].current.value;
      if runnable then |added| == 1 && QueuesByKind(added[0], t, ClassOf(h, s, t) == Hog, n)
      else added == []
    case _ => added == []
  }

  ghost predicate StepAdds(h: Host, s: State, e: Event, n: Numbers)
    requires Shaped(h, s) && Enabled(h, s, e)
  {
    var r := Step(h, s, e);
    s.log <= r.log && Adds(h, s, e, r.log[|s.log|..], n)
  }

  predicate HasNumbers(p: Policy, n: Numbers) {
    p.fgDsq == n.fgDsq && p.bgDsq == n.bgDsq && p.fgSlice == n.fgSlice && p.bgSlice == n.bgSlice
    && p.preempts == n.kicks
  }

  // ----- one event

  lemma EnqueueLogs(h: Host, s: State, t: Task, storage: bool, n: Numbers)
    requires Shaped(h, s) && HasNumbers(h.policy, n)
    ensures var log := Enqueue(h, s, t, storage).log;
            |log| == |s.log| + 1 && log[..|s.log|] == s.log
            && QueuesByKind(log[|s.log|], t, ClassOf(h, s, t) == Hog, n)
  {
  }

  lemma SelectLogs(h: Host, s: State, t: Task, cpu: Cpu, storage: bool)
    requires Shaped(h, s) && cpu < |s.cpus|
    ensures var log := SelectCpu(h, s, t, cpu, false, storage).log;
            s.log <= log && KicksOnly(log[|s.log|..], h.policy.preempts && ClassOf(h, s, t) == Kicker)
  {
    if h.policy.preempts {
      WakeLogs(h, s, t, cpu, storage);
    } else {
      assert SelectCpu(h, s, t, cpu, false, storage) == Remember(h, s, t, storage);
    }
  }

  lemma IdleWakeAdds(h: Host, s: State, e: Event, n: Numbers)
    requires Shaped(h, s) && Enabled(h, s, e) && HasNumbers(h.policy, n) && e.Wake? && e.idle
    ensures StepAdds(h, s, e, n)
  {
    var s0 := s.(runnable := s.runnable + {e.task});
    assert ClassOf(h, s0, e.task) == ClassOf(h, s, e.task);
  }

  lemma SplitLog(log: seq<Effect>, middle: seq<Effect>, whole: seq<Effect>)
    requires log <= middle && |whole| == |middle| + 1 && whole[..|middle|] == middle
    ensures log <= whole
    ensures whole[|log|..][..|whole| - |log| - 1] == middle[|log|..]
    ensures whole[|log|..][|whole| - |log| - 1] == whole[|middle|]
  {
  }

  lemma QueuedWakeAdds(h: Host, s: State, e: Event, n: Numbers)
    requires Shaped(h, s) && Enabled(h, s, e) && HasNumbers(h.policy, n) && e.Wake? && !e.idle
    ensures StepAdds(h, s, e, n)
  {
    var s0 := s.(runnable := s.runnable + {e.task});
    assert ClassOf(h, s0, e.task) == ClassOf(h, s, e.task);
    SelectLogs(h, s0, e.task, e.cpu, e.storage);
    SelectKeepsClasses(h, s0, e.task, e.cpu, e.idle, e.storage);
    var s1 := SelectCpu(h, s0, e.task, e.cpu, e.idle, e.storage);
    EnqueueLogs(h, s1, e.task, e.storage2, n);
    SplitLog(s.log, s1.log, Step(h, s, e).log);
  }

  lemma MoveLogs(h: Host, s: State, dsq: DsqId, cpu: Cpu)
    requires Shaped(h, s) && dsq in s.dsqs && cpu < |s.cpus| && CanMove(h, s, dsq, cpu) && s.cpus[cpu].local == []
    ensures var r := MoveToLocal(h, s, dsq, cpu);
            |r.log| == |s.log| + 1 && r.log[..|s.log|] == s.log
            && var last := r.log[|s.log|];
               last.Move? && last.cpu == cpu && last.dsq == dsq && last.task in s.dsqs[dsq]
               && r.cpus[cpu].local == [last.task]
  {
  }

  lemma BalanceStepAdds(h: Host, s: State, e: Event, n: Numbers)
    requires Shaped(h, s) && Enabled(h, s, e) && e.Balance?
    ensures StepAdds(h, s, e, n)
  {
    if CanMove(h, s, Global, e.cpu) {
      MoveLogs(h, s, Global, e.cpu);
    } else if h.policy.fgDsq != Global && CanMove(h, s, h.policy.fgDsq, e.cpu) {
      MoveLogs(h, s, h.policy.fgDsq, e.cpu);
    } else if CanMove(h, s, h.policy.bgDsq, e.cpu) {
      MoveLogs(h, s, h.policy.bgDsq, e.cpu);
    }
  }

  lemma StopStepAdds(h: Host, s: State, e: Event, n: Numbers)
    requires Shaped(h, s) && Enabled(h, s, e) && HasNumbers(h.policy, n) && e.Stop?
    ensures StepAdds(h, s, e, n)
  {
    var s1 := SwitchOut(h, s, e.cpu, e.storage);
    SwitchOutKeepsClasses(h, s, e.cpu, e.storage);
    if e.runnable {
      EnqueueLogs(h, s1, s.cpus[e.cpu].current.value, e.storage2, n);
    }
  }

  lemma EveryStepAdds(h: Host, s: State, e: Event, n: Numbers)
    requires Shaped(h, s) && Enabled(h, s, e) && HasNumbers(h.policy, n)
    ensures StepAdds(h, s, e, n)
  {
    match e
    case Wake(_, _, idle, _, _) =>
      if idle {
        IdleWakeAdds(h, s, e, n);
      } else {
        QueuedWakeAdds(h, s, e, n);
      }
    case Balance(_) => BalanceStepAdds(h, s, e, n);
    case Stop(_, _, _, _) => StopStepAdds(h, s, e, n);
    case Start(_, _) =>
    case Rename(_, _) =>
    case Tick(_) =>
  }

  // ----- runs

  /** Every event of the run adds to the log what it should. */
  ghost predicate AlwaysAdds(h: Host, s: State, es: seq<Event>, n: Numbers)
    requires Shaped(h, s) && Feasible(h, s, es)
    decreases |es|
  {
    es != [] ==>
      StepAdds(h, s, es[0], n) && (StepShape(h, s, es[0]); AlwaysAdds(h, Step(h, s, es[0]), es[1..], n))
  }

  lemma {:induction false} RunAdds(h: Host, s: State, es: seq<Event>, n: Numbers)
    requires Shaped(h, s) && Feasible(h, s, es) && HasNumbers(h.policy, n)
    ensures AlwaysAdds(h, s, es, n)
    decreases |es|
  {
    if es != [] {
      StepShape(h, s, es[0]);
      EveryStepAdds(h, s, es[0], n);
      RunAdds(h, Step(h, s, es[0]), es[1..], n);
    }
  }

  ghost predicate RunAddsBy(h: Host, es: seq<Event>, n: Numbers) {
    h.Valid() && (Feasible(h, Init(h), es) ==> AlwaysAdds(h, Init(h), es, n))
  }

  /** On every machine, every run of the scheduler from its start adds by these numbers. */
  ghost predicate RunsBy(p: Policy, n: Numbers) {
    forall nrCpus: nat, may: (Task, Cpu) -> bool, es: seq<Event> :: RunAddsBy(Host(p, nrCpus, may), es, n)
  }

  lemma PolicyRunsBy(p: Policy, n: Numbers)
    requires HasNumbers(p, n) && p.bgDsq.Custom? && p.fgDsq != p.bgDsq
    ensures RunsBy(p, n)
  {
    forall nrCpus: nat, may: (Task, Cpu) -> bool, es: seq<Event>
      ensures RunAddsBy(Host(p, nrCpus, may), es, n)
    {
      var h := Host(p, nrCpus, may);
      if Feasible(h, Init(h), es) {
        RunAdds(h, Init(h), es, n);
      }
    }
  }

  /**
   The hand-written schedulers: background tasks always get 20 ms, on an idle CPU as in
   their queue; the others get 5 ms, with `db_aware` 3 ms; `db_aware` never kicks.
   */
  lemma HandWrittenNumbers()
    ensures RunsBy(RedisAware(), Numbers(Custom(0x200), Custom(0x201), 5_000_000, 20_000_000, true))
    ensures RunsBy(RocksdbAware(), Numbers(Custom(0x100), Custom(0x101), 5_000_000, 20_000_000, true))
    ensures RunsBy(NginxAware(), Numbers(Global, Custom(0x201), 5_000_000, 20_000_000, true))
    ensures RunsBy(DbAware(), Numbers(Custom(0), Custom(1), 3_000_000, 20_000_000, false))
  {
    PolicyRunsBy(RedisAware(), Numbers(Custom(0x200), Custom(0x201), 5_000_000, 20_000_000, true));
    PolicyRunsBy(RocksdbAware(), Numbers(Custom(0x100), Custom(0x101), 5_000_000, 20_000_000, true));
    PolicyRunsBy(NginxAware(), Numbers(Global, Custom(0x201), 5_000_000, 20_000_000, true));
    PolicyRunsBy(DbAware(), Numbers(Custom(0), Custom(1), 3_000_000, 20_000_000, false));
  }

  /** The generated schedulers, by template. */
  lemma TemplateNumbers(threads: seq<Entry>, pattern: Pattern)
    requires Usable(threads, pattern)
    ensures pattern.SimpleDualDsq? ==>
              RunsBy(FromTemplate(threads, pattern),
                     Numbers(Custom(0x100), Custom(0x101), 3_000_000, 20_000_000, false))
    ensures pattern.SelectivePreemption? ==>
              RunsBy(FromTemplate(threads, pattern),
                     Numbers(Custom(0x200), Custom(0x201), 5_000_000, 20_000_000, true))
    ensures pattern.AsymmetricTaskStorage? ==>
              RunsBy(FromTemplate(threads, pattern),
                     Numbers(Global, Custom(0x201), 5_000_000, 20_000_000, true))
  {
    var p := FromTemplate(threads, pattern);
    match pattern
    case SimpleDualDsq =>
      PolicyRunsBy(p, Numbers(Custom(0x100), Custom(0x101), 3_000_000, 20_000_000, false));
    case SelectivePreemption =>
      PolicyRunsBy(p, Numbers(Custom(0x200), Custom(0x201), 5_000_000, 20_000_000, true));
    case AsymmetricTaskStorage =>
      PolicyRunsBy(p, Numbers(Global, Custom(0x201), 5_000_000, 20_000_000, true));
  }

  // ----- who kicks, and who survives renames

  ghost predicate KicksAfterOverdueRun(p: Policy, front: CommRead, back: CommRead) {
    forall nrCpus: nat, may: (Task, Cpu) -> bool :: KickHappens(Host(p, nrCpus, may), front, back)
  }

  /** On this machine such a run ends in a kick. */
  ghost predicate KickHappens(h: Host, front: CommRead, back: CommRead) {
    h.nrCpus >= 1 && h.may(0, 0) ==>
      exists s :: KicksIn(h, front, back, s)
  }

  ghost predicate KicksIn(h: Host, front: CommRead, back: CommRead, s: State) {
    && h.Valid() && EndsIn(h, Init(h), OverdueRun(front, back), s)
    && h.nrCpus >= 1 && SelectCpu(h, s, 1, 0, false, true).log == s.log + [Kick(0)]
  }

  lemma PreemptiveKicks(p: Policy, front: CommRead, back: CommRead)
    requires p.bgDsq.Custom? && p.fgDsq != p.bgDsq && p.preempts
    requires p.classify(front) == Kicker && p.classify(back) == Hog
    ensures KicksAfterOverdueRun(p, front, back)
  {
    forall nrCpus: nat, may: (Task, Cpu) -> bool
      ensures KickHappens(Host(p, nrCpus, may), front, back)
    {
      var h := Host(p, nrCpus, may);
      if h.nrCpus >= 1 && h.may(0, 0) {
        var s := KickIsReachable(h, front, back, true);
        assert KicksIn(h, front, back, s);
      }
    }
  }

  /** The three preemptive schedulers do kick, whatever the names: once a background thread has run for 2 ms. */
  lemma RedisKicks(front: Name, back: Name)
    requires !("bio_" <= front || "redis-r" <= front || "redis-a" <= front || "jemalloc" <= front)
    requires "bio_" <= back || "redis-r" <= back || "redis-a" <= back || "jemalloc" <= back
    ensures KicksAfterOverdueRun(RedisAware(), Read(front), Read(back))
  {
    RedisMeaning(front);
    RedisMeaning(back);
    PreemptiveKicks(RedisAware(), Read(front), Read(back));
  }

  lemma RocksdbKicks(front: Name, back: Name)
    requires !("rocksdb:" <= front) && "rocksdb:" <= back
    ensures KicksAfterOverdueRun(RocksdbAware(), Read(front), Read(back))
  {
    RocksdbMeaning(front);
    RocksdbMeaning(back);
    PreemptiveKicks(RocksdbAware(), Read(front), Read(back));
  }

  lemma NginxKicks(front: Name, back: Name)
    requires "nginx" <= front && "stress-ng" <= back && !("nginx" <= back)
    ensures KicksAfterOverdueRun(NginxAware(), Read(front), Read(back))
  {
    NginxMeaning(front);
    NginxMeaning(back);
    PreemptiveKicks(NginxAware(), Read(front), Read(back));
  }

  /** So do templates B and C, for any names the manifest tells apart. */
  lemma TemplateKicks(threads: seq<Entry>, pattern: Pattern, front: Name, back: Name)
    requires Usable(threads, pattern) && !pattern.SimpleDualDsq?
    requires Intended(threads, pattern, Read(front)) == Kicker && Intended(threads, pattern, Read(back)) == Hog
    ensures KicksAfterOverdueRun(FromTemplate(threads, pattern), Read(front), Read(back))
  {
    GeneratedMeaning(threads, pattern, Read(front));
    GeneratedMeaning(threads, pattern, Read(back));
    PreemptiveKicks(FromTemplate(threads, pattern), Read(front), Read(back));
  }

  /** `nginx_aware` and template C keep their records exact whatever is renamed, if storage can be had. */
  lemma AsymmetricSurvivesRenames(threads: seq<Entry>, nrCpus: nat, may: (Task, Cpu) -> bool, es: seq<Event>)
    requires AllStorageOk(es)
    ensures var h := Host(NginxAware(), nrCpus, may);
            Feasible(h, Init(h), es) ==> AlwaysFlagsExact(h, Init(h), es) && AlwaysPure(h, Init(h), es)
    ensures Usable(threads, AsymmetricTaskStorage) ==>
              var h := Host(FromTemplate(threads, AsymmetricTaskStorage), nrCpus, may);
              Feasible(h, Init(h), es) ==> AlwaysFlagsExact(h, Init(h), es) && AlwaysPure(h, Init(h), es)
  {
    var h := Host(NginxAware(), nrCpus, may);
    if Feasible(h, Init(h), es) {
      CachingSurvivesRenames(h, es);
    }
    if Usable(threads, AsymmetricTaskStorage) {
      var k := Host(FromTemplate(threads, AsymmetricTaskStorage), nrCpus, may);
      if Feasible(k, Init(k), es) {
        CachingSurvivesRenames(k, es);
      }
    }
  }

  /** `redis_aware` does not, storage or no storage. */
  lemma RedisFlagGoesWrong(
      front: Name, back: Name, nrCpus: nat, may: (Task, Cpu) -> bool, storage: bool) returns (s: State)
    requires !("bio_" <= front || "redis-r" <= front || "redis-a" <= front || "jemalloc" <= front)
    requires "bio_" <= back || "redis-r" <= back || "redis-a" <= back || "jemalloc" <= back
    requires nrCpus >= 1 && may(0, 0)
    ensures var h := Host(RedisAware(), nrCpus, may);
            EndsIn(h, Init(h), FlipRun(Read(front), Read(back), storage), s) && !FlagsExact(h, s)
  {
    RedisMeaning(front);
    RedisMeaning(back);
    s := WrongFlagIsReachable(Host(RedisAware(), nrCpus, may), Read(front), Read(back), storage);
  }
}
