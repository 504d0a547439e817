/**
 Selective preemption: whom a wake-up without an idle CPU kicks.
 */
module Kicks {
  import opened Wrappers
  import opened Comm
  import opened Machine
  import opened Conservation
  import opened Scenarios
  import opened Tracking

  /** The CPU is one of the first 256, runs a background task, and has for at least 2 ms. */
  ghost predicate Overdue(h: Host, s: State, cpu: Cpu) {
    cpu < 256 && RunsHog(h, s, cpu) && s.cpus[cpu].since + 2_000_000 <= s.clock
  }

  ghost predicate LowestOverdue(h: Host, s: State, cpu: Cpu) {
    Overdue(h, s, cpu) && forall c :: 0 <= c < cpu ==> !Overdue(h, s, c)
  }

  /** With exact flags the test of the scan is the truth, and its subtraction does not wrap. */
  lemma KickableIffOverdue(h: Host, s: State, cpu: Cpu)
    requires Shaped(h, s) && FlagsExact(h, s) && h.policy.preempts && cpu < MAX_CPUS
    ensures Kickable(s, s.clock, cpu) <==> Overdue(h, s, cpu)
    ensures s.bgRunning[cpu] != 0 ==>
              cpu < |s.cpus| && Sub64(s.clock, s.bgStart[cpu]) == s.clock - s.cpus[cpu].since
  {
    assert FlagExact(h, s, cpu);
  }

  /** What the scan finds is the lowest-numbered overdue CPU, if there is one. */
  lemma ScanFindsLowestOverdue(h: Host, s: State)
    requires Shaped(h, s) && FlagsExact(h, s) && h.policy.preempts
    ensures var found := Scan(s, s.clock, 0, h.ScanLimit());
            && (found.Some? ==> LowestOverdue(h, s, found.value))
            && (found.None? ==> forall cpu :: !Overdue(h, s, cpu))
  {
    var found := Scan(s, s.clock, 0, h.ScanLimit());
    forall cpu | 0 <= cpu < MAX_CPUS
      ensures Kickable(s, s.clock, cpu) <==> Overdue(h, s, cpu)
    {
      KickableIffOverdue(h, s, cpu);
    }
    assert found.Some? ==> Kickable(s, s.clock, found.value);
    forall cpu: nat | cpu < (if found.Some? then found.value else h.ScanLimit())
      ensures !Overdue(h, s, cpu)
    {
      assert !Kickable(s, s.clock, cpu);
    }
  }

  /** Scanning min(nr_cpus, 256) CPUs finds what scanning all 256 entries would. */
  lemma BoundedScanIsFullScan(h: Host, s: State)
    requires Shaped(h, s) && FlagsExact(h, s) && h.policy.preempts
    ensures Scan(s, s.clock, 0, h.ScanLimit()) == Scan(s, s.clock, 0, MAX_CPUS)
  {
    var bounded, full := Scan(s, s.clock, 0, h.ScanLimit()), Scan(s, s.clock, 0, MAX_CPUS);
    if full.Some? {
      KickableIffOverdue(h, s, full.value);
      assert full.value < h.ScanLimit();
      assert bounded.Some?;
      assert !(bounded.value < full.value) && !(full.value < bounded.value);
    }
  }

  /**
   The kick of a wake-up that found no idle CPU: at most one; for a task that may kick it
   is the lowest-numbered overdue CPU, and there is none exactly when no CPU is overdue;
   for any other task there is none.
   */
  ghost predicate KicksRight(h: Host, s: State, t: Task, cpu: Cpu, storage: bool)
    requires Shaped(h, s) && cpu < |s.cpus|
  {
    var log := SelectCpu(h, s, t, cpu, false, storage).log;
    if ClassOf(h, s, t) != Kicker then log == s.log
    else
      && (forall c :: LowestOverdue(h, s, c) ==> log == s.log + [Kick(c)])
      && (log == s.log <==> forall c :: !Overdue(h, s, c))
      && (log != s.log ==> exists c :: LowestOverdue(h, s, c))
  }

  lemma OnlyLowestOverdue(h: Host, s: State, found: Option<nat>)
    requires found.Some? ==> LowestOverdue(h, s, found.value)
    requires found.None? ==> forall cpu :: !Overdue(h, s, cpu)
    ensures forall c: Cpu :: LowestOverdue(h, s, c) <==> found == Some(c)
    ensures (exists c: Cpu :: Overdue(h, s, c)) <==> found.Some?
  {
    forall c: Cpu | LowestOverdue(h, s, c)
      ensures found == Some(c)
    {
      assert found.Some?;
      assert !(found.value < c) && !(c < found.value);
    }
  }

  /** What a wake-up without an idle CPU logs. */
  lemma WakeLogs(h: Host, s: State, t: Task, cpu: Cpu, storage: bool)
    requires Shaped(h, s) && h.policy.preempts && cpu < |s.cpus|
    ensures var log, found := SelectCpu(h, s, t, cpu, false, storage).log, Scan(s, s.clock, 0, h.ScanLimit());
            log == if ClassOf(h, s, t) == Kicker && found.Some? then s.log + [Kick(found.value)] else s.log
  {
    var s1 := Remember(h, s, t, storage);
    SameScan(s, s1, 0, h.ScanLimit());
    KickLogs(h, s1);
    assert SelectCpu(h, s, t, cpu, false, storage) == if ClassOf(h, s, t) == Kicker then KickOne(h, s1) else s1;
  }

  lemma KickLogs(h: Host, s: State)
    requires |s.bgRunning| == |s.bgStart| == MAX_CPUS
    ensures var found := Scan(s, s.clock, 0, h.ScanLimit());
            KickOne(h, s).log == if found.Some? then s.log + [Kick(found.value)] else s.log
  {
  }

  lemma WakeKicksRight(h: Host, s: State, t: Task, cpu: Cpu, storage: bool)
    requires Shaped(h, s) && FlagsExact(h, s) && h.policy.preempts && cpu < |s.cpus|
    ensures KicksRight(h, s, t, cpu, storage)
  {
    ScanFindsLowestOverdue(h, s);
    var found := Scan(s, s.clock, 0, h.ScanLimit());
    OnlyLowestOverdue(h, s, found);
    WakeLogs(h, s, t, cpu, storage);
    assert found.Some? ==> |s.log + [Kick(found.value)]| == |s.log| + 1;
  }

  /**
   In every state reached by a run in which no running task changes its kind by a rename,
   whoever wakes up next; queued and sleeping tasks may be renamed at will.
   */
  lemma EveryReachableKickIsRight(h: Host, es: seq<Event>, t: Task, cpu: Cpu, storage: bool)
    requires h.Valid() && h.policy.preempts && cpu < h.nrCpus
    requires Feasible(h, Init(h), es) && NeverFlipsRunning(h, Init(h), es)
    ensures KicksRight(h, Run(h, Init(h), es), t, cpu, storage)
  {
    InitExact(h);
    LastFlagsExact(h, Init(h), es);
    WakeKicksRight(h, Run(h, Init(h), es), t, cpu, storage);
  }

  /** The caching scheduler kicks right in every run, whatever is renamed, if storage can be had. */
  lemma EveryCachedKickIsRight(h: Host, es: seq<Event>, t: Task, cpu: Cpu, storage: bool)
    requires h.Valid() && h.policy.preempts && h.policy.caches && cpu < h.nrCpus
    requires Feasible(h, Init(h), es) && AllStorageOk(es)
    ensures KicksRight(h, Run(h, Init(h), es), t, cpu, storage)
  {
    InitConserved(h);
    CachedRunsNeverFlip(h, Init(h), es);
    EveryReachableKickIsRight(h, es, t, cpu, storage);
  }

  // ----- kicks happen

  /** Two tasks get names; the second, a background task, is put on CPU 0 and runs for the minimum. */
  function OverdueRun(front: CommRead, back: CommRead): seq<Event> {
    [Rename(1, front)] + [Rename(0, back)] + [Wake(0, 0, true, true, true)] + [Start(0, true)] + [Tick(BG_MIN_RUN_NS)]
  }

  lemma OverdueIsReachable(h: Host, front: CommRead, back: CommRead) returns (s: State)
    requires h.Valid() && h.policy.preempts && h.nrCpus >= 1 && h.may(0, 0)
    requires h.policy.classify(front) == Kicker && h.policy.classify(back) == Hog
    ensures EndsIn(h, Init(h), OverdueRun(front, back), s) && FlagsExact(h, s)
    ensures LowestOverdue(h, s, 0) && ClassOf(h, s, 1) == Kicker
  {
    var s1 := NamedPair(h, front, back);
    var s3 := OccupyCpu(h, s1, true);
    var e1, e2, e3 := Wake(0, 0, true, true, true), Start(0, true), Tick(BG_MIN_RUN_NS);
    var s2 := Step(h, s1, e1);
    StepKeepsFlags(h, s1, e1);
    StepKeepsFlags(h, s2, e2);
    assert ClassOf(h, s1, 0) == Hog && ClassOf(h, s1, 1) == Kicker;
    s := Step(h, s3, e3);
    RunsLongEnough(h, s3, e3);
    ThreeMore(h, Init(h), [Rename(1, front)] + [Rename(0, back)], s1, e1, s2, e2, s3, e3, s);
  }

  lemma RunsLongEnough(h: Host, s: State, e: Event)
    requires Shaped(h, s) && e == Tick(BG_MIN_RUN_NS) && Enabled(h, s, e)
    requires h.policy.preempts && FlagsExact(h, s) && RunsHog(h, s, 0)
    ensures Shaped(h, Step(h, s, e)) && FlagsExact(h, Step(h, s, e)) && LowestOverdue(h, Step(h, s, e), 0)
    ensures forall t :: ClassOf(h, Step(h, s, e), t) == ClassOf(h, s, t)
  {
    StepKeepsFlags(h, s, e);
    assert FlagExact(h, s, 0);
    assert forall t :: ClassOf(h, Step(h, s, e), t) == ClassOf(h, s, t);
  }

  /** After such a run the next wake-up of the foreground task kicks CPU 0. */
  lemma KickIsReachable(h: Host, front: CommRead, back: CommRead, storage: bool) returns (s: State)
    requires h.Valid() && h.policy.preempts && h.nrCpus >= 1 && h.may(0, 0)
    requires h.policy.classify(front) == Kicker && h.policy.classify(back) == Hog
    ensures EndsIn(h, Init(h), OverdueRun(front, back), s)
    ensures SelectCpu(h, s, 1, 0, false, storage).log == s.log + [Kick(0)]
  {
    s := OverdueIsReachable(h, front, back);
    WakeKicksRight(h, s, 1, 0, storage);
  }

  lemma FirstIsKicked(h: Host, s: State, t: Task, cpu: Cpu, storage: bool)
    requires Shaped(h, s) && h.policy.preempts && h.nrCpus >= 1 && cpu < h.nrCpus
    requires ClassOf(h, s, t) == Kicker && Kickable(s, s.clock, 0)
    ensures SelectCpu(h, s, t, cpu, false, storage).log == s.log + [Kick(0)]
  {
    WakeLogs(h, s, t, cpu, storage);
    assert Scan(s, s.clock, 0, h.ScanLimit()) == Some(0);
  }

  /**
   And they go wrong after a flip: a task renamed to a foreground name while it runs is
   kicked by the next foreground wake-up although it is not background.
   */
  lemma WrongKickIsReachable(h: Host, front: CommRead, back: CommRead, storage: bool) returns (s: State)
    requires h.Valid() && h.policy.preempts && h.nrCpus >= 1 && h.may(0, 0) && !(h.policy.caches && storage)
    requires h.policy.classify(front) == Kicker && h.policy.classify(back) == Hog
    ensures EndsIn(h, Init(h), FlipRun(front, back, storage) + [Tick(BG_MIN_RUN_NS)], s)
    ensures !RunsHog(h, s, 0) && Kick(0) in SelectCpu(h, s, 1, 0, false, storage).log
    ensures !KicksRight(h, s, 1, 0, storage)
  {
    var r := WrongFlagIsReachable(h, front, back, storage);
    var e := Tick(BG_MIN_RUN_NS);
    s := Step(h, r, e);
    OneEvent(h, r, e);
    RunConcat(h, Init(h), FlipRun(front, back, storage), r, [e], s);
    assert Kickable(s, s.clock, 0);
    FirstIsKicked(h, s, 1, 0, storage);
    assert !Overdue(h, s, 0);
    var log := SelectCpu(h, s, 1, 0, false, storage).log;
    assert log != s.log && log[|s.log|] == Kick(0);
    forall c | LowestOverdue(h, s, c)
      ensures log != s.log + [Kick(c)]
    {
      assert (s.log + [Kick(c)])[|s.log|] == Kick(c) != Kick(0);
    }
  }
}
