/**
 Stage 1c's judgement of a thread from its counters, over real ratios, and what it is over
 the runs the counters come from.
 */
module Behaviour {
  import opened Manifest
  import opened Accounting

  datatype Habit = Idle | EventLoop | IoWorker | CpuBatch | Compaction | Unknown

  function ClassifyThread(totalRun: nat, totalSleep: nat, wakeups: nat, network: nat, disk: nat): (Role, Habit) {
    if totalRun + totalSleep == 0 || wakeups == 0 then (Foreground, Idle)
    else
      var sleepRatio := totalSleep as real / (totalRun + totalSleep) as real;
      var avgBurst := totalRun as real / wakeups as real;
      if sleepRatio > 0.8 && network > 100 && avgBurst < 1_000_000.0 then (Foreground, EventLoop)
      else if sleepRatio > 0.5 && network > 50 then (Foreground, IoWorker)
      else if avgBurst > 2_000_000.0 && disk > 50 then (Background, CpuBatch)
      else if avgBurst > 5_000_000.0 && sleepRatio < 0.3 then (Background, Compaction)
      else (Foreground, Unknown)
  }

  lemma CompareRatio(a: nat, b: nat, num: nat, den: nat)
    requires b > 0 && den > 0
    ensures a as real / b as real > num as real / den as real <==> a * den > num * b
    ensures a as real / b as real < num as real / den as real <==> a * den < num * b
  {
    var x, y := a as real / b as real, num as real / den as real;
    var scale := b as real * den as real;
    assert x * b as real == a as real && y * den as real == num as real;
    assert x * scale == (a * den) as real && y * scale == (num * b) as real;
    assert scale > 0.0;
    assert (x - y) * scale == (a * den) as real - (num * b) as real;
  }

  /**
   When a thread is called background, in whole numbers: it is not a networked sleeper, and
   it has long bursts with disk activity or very long ones with little sleep.
   */
  lemma BackgroundIff(totalRun: nat, totalSleep: nat, wakeups: nat, network: nat, disk: nat)
    ensures ClassifyThread(totalRun, totalSleep, wakeups, network, disk).0 == Background <==>
            && wakeups > 0
            && !(totalSleep > totalRun && network > 50)
            && ((totalRun > 2_000_000 * wakeups && disk > 50)
                || (totalRun > 5_000_000 * wakeups && 7 * totalSleep < 3 * totalRun))
  {
    if totalRun + totalSleep > 0 && wakeups > 0 {
      var total := totalRun + totalSleep;
      CompareRatio(totalSleep, total, 8, 10);
      CompareRatio(totalSleep, total, 5, 10);
      CompareRatio(totalSleep, total, 3, 10);
      CompareRatio(totalRun, wakeups, 2_000_000, 1);
      CompareRatio(totalRun, wakeups, 5_000_000, 1);
    }
  }

  /** Each of the other habits, in whole numbers; the first that applies counts. */
  lemma HabitIff(totalRun: nat, totalSleep: nat, wakeups: nat, network: nat, disk: nat)
    ensures var habit := ClassifyThread(totalRun, totalSleep, wakeups, network, disk).1;
            var eventLoop := totalSleep > 4 * totalRun && network > 100 && totalRun < 1_000_000 * wakeups;
            var worker := totalSleep > totalRun && network > 50;
            var batch := totalRun > 2_000_000 * wakeups && disk > 50;
            && (habit == Idle <==> totalRun + totalSleep == 0 || wakeups == 0)
            && (habit == EventLoop <==> totalRun + totalSleep > 0 && wakeups > 0 && eventLoop)
            && (habit == IoWorker <==> totalRun + totalSleep > 0 && wakeups > 0 && !eventLoop && worker)
            && (habit == CpuBatch <==> totalRun + totalSleep > 0 && wakeups > 0 && !worker && batch)
  {
    if totalRun + totalSleep > 0 && wakeups > 0 {
      var total := totalRun + totalSleep;
      CompareRatio(totalSleep, total, 8, 10);
      CompareRatio(totalSleep, total, 5, 10);
      CompareRatio(totalSleep, total, 3, 10);
      CompareRatio(totalRun, wakeups, 1_000_000, 1);
      CompareRatio(totalRun, wakeups, 2_000_000, 1);
      CompareRatio(totalRun, wakeups, 5_000_000, 1);
    }
  }

  /** When the compaction rule fires, in whole numbers. */
  lemma CompactionIff(totalRun: nat, totalSleep: nat, wakeups: nat, network: nat, disk: nat)
    ensures ClassifyThread(totalRun, totalSleep, wakeups, network, disk) == (Background, Compaction) <==>
            wakeups > 0 && disk <= 50 && totalRun > 5_000_000 * wakeups && 7 * totalSleep < 3 * totalRun
    ensures ClassifyThread(totalRun, totalSleep, wakeups, network, disk).1 == Compaction <==>
            ClassifyThread(totalRun, totalSleep, wakeups, network, disk) == (Background, Compaction)
  {
    if totalRun + totalSleep > 0 && wakeups > 0 {
      var total := totalRun + totalSleep;
      CompareRatio(totalSleep, total, 8, 10);
      CompareRatio(totalSleep, total, 5, 10);
      CompareRatio(totalSleep, total, 3, 10);
      CompareRatio(totalRun, wakeups, 2_000_000, 1);
      CompareRatio(totalRun, wakeups, 5_000_000, 1);
    }
  }

  // ----- the order of a thread's bursts

  /** The bursts of one thread follow each other. */
  ghost predicate InOrder(bursts: seq<Burst>) {
    && (forall i :: 0 <= i < |bursts| ==> bursts[i].start <= bursts[i].end)
    && forall i, j :: 0 <= i < j < |bursts| && bursts[i].pid == bursts[j].pid ==> bursts[i].end <= bursts[j].start
  }

  ghost predicate AfterBursts(wakeups: seq<Wakeup>) {
    forall i :: 0 <= i < |wakeups| ==> wakeups[i].start <= wakeups[i].end <= wakeups[i].at
  }

  ghost predicate Ordered(w: World)
    requires Formed(w)
  {
    && InOrder(w.bursts) && AfterBursts(w.wakeups)
    && (forall i :: 0 <= i < |w.bursts| ==> w.bursts[i].end <= w.clock)
    && forall c, i :: 0 <= c < |w.on| && 0 <= i < |w.bursts| && w.bursts[i].pid == w.on[c] ==>
         w.bursts[i].end <= w.since[c]
  }

  lemma ObserveOrdered(w: World, e: Event, who: Pid -> Identity, filter: nat)
    requires Formed(w) && Possible(w, e) && Ordered(w)
    ensures Formed(Observe(w, e, who, filter)) && Ordered(Observe(w, e, who, filter))
  {
    ObserveFormed(w, e, who, filter);
  }

  lemma {:induction false} RunOrdered(w: World, es: seq<Event>, who: Pid -> Identity, filter: nat)
    requires Formed(w) && Feasible(w, es, who, filter) && Ordered(w)
    ensures Ordered(Run(w, es, who, filter))
    decreases |es|
  {
    if es != [] {
      ObserveOrdered(w, es[0], who, filter);
      RunOrdered(Observe(w, es[0], who, filter), es[1..], who, filter);
    }
  }

  lemma {:induction false} RunTimeNotNegative(bursts: seq<Burst>, pid: Pid)
    requires InOrder(bursts)
    ensures RunTime(bursts, pid) >= 0
  {
    if bursts != [] {
      RunTimeNotNegative(bursts[..|bursts| - 1], pid);
    }
  }

  lemma {:induction false} SleepNotNegative(wakeups: seq<Wakeup>, pid: Pid)
    requires AfterBursts(wakeups)
    ensures SleepTime(wakeups, pid) >= 0 && BurstsBeforeWakeups(wakeups, pid) >= 0
  {
    if wakeups != [] {
      SleepNotNegative(wakeups[..|wakeups| - 1], pid);
    }
  }

  // ----- bursts that a wake-up follows

  ghost predicate Woken(b: Burst, wakeups: seq<Wakeup>) {
    exists k :: 0 <= k < |wakeups| && Follow(wakeups[k], b)
  }

  predicate Follow(u: Wakeup, b: Burst) {
    u.pid == b.pid && u.start == b.start && u.end == b.end
  }

  ghost predicate AllWoken(bursts: seq<Burst>, wakeups: seq<Wakeup>, pid: Pid) {
    forall i :: 0 <= i < |bursts| && bursts[i].pid == pid ==> Woken(bursts[i], wakeups)
  }

  /** A wake-up follows each burst of the thread but possibly its last. */
  ghost predicate AllWokenButLast(bursts: seq<Burst>, wakeups: seq<Wakeup>, pid: Pid) {
    forall i, j :: 0 <= i < j < |bursts| && bursts[i].pid == bursts[j].pid == pid ==> Woken(bursts[i], wakeups)
  }

  /** The length of the thread's last completed burst. */
  function LastBurst(bursts: seq<Burst>, pid: Pid): int {
    if bursts == [] then 0
    else
      var b := bursts[|bursts| - 1];
      if b.pid == pid then b.end - b.start else LastBurst(bursts[..|bursts| - 1], pid)
  }

  lemma {:induction false} LastBurstIs(bursts: seq<Burst>, pid: Pid, i: nat)
    requires i < |bursts| && bursts[i].pid == pid && forall j :: i < j < |bursts| ==> bursts[j].pid != pid
    ensures LastBurst(bursts, pid) == bursts[i].end - bursts[i].start
  {
    if i < |bursts| - 1 {
      LastBurstIs(bursts[..|bursts| - 1], pid, i);
    }
  }

  function Drop(wakeups: seq<Wakeup>, k: nat): seq<Wakeup>
    requires k < |wakeups|
  {
    wakeups[..k] + wakeups[k + 1..]
  }

  lemma {:induction false} DropOne(wakeups: seq<Wakeup>, k: nat, pid: Pid)
    requires k < |wakeups| && wakeups[k].pid == pid
    ensures BurstsBeforeWakeups(wakeups, pid)
         == BurstsBeforeWakeups(Drop(wakeups, k), pid) + wakeups[k].end - wakeups[k].start
  {
    var n := |wakeups| - 1;
    var init := wakeups[..n];
    if k == n {
      assert Drop(wakeups, k) == init;
    } else {
      DropOne(init, k, pid);
      assert Drop(wakeups, k) == Drop(init, k) + [wakeups[n]];
      assert (Drop(init, k) + [wakeups[n]])[..n - 1] == Drop(init, k);
    }
  }

  /** Bursts that wake-ups follow are all within what the wake-ups count. */
  lemma {:induction false} WokenBurstsCount(bursts: seq<Burst>, wakeups: seq<Wakeup>, pid: Pid)
    requires InOrder(bursts) && AfterBursts(wakeups) && AllWoken(bursts, wakeups, pid)
    ensures RunTime(bursts, pid) <= BurstsBeforeWakeups(wakeups, pid)
    decreases |bursts|
  {
    if bursts == [] {
      SleepNotNegative(wakeups, pid);
    } else {
      var init, b := bursts[..|bursts| - 1], bursts[|bursts| - 1];
      if b.pid != pid || b.start == b.end {
        WokenBurstsCount(init, wakeups, pid);
      } else {
        assert Woken(b, wakeups);
        var k :| 0 <= k < |wakeups| && Follow(wakeups[k], b);
        EarlierStillWoken(init, b, wakeups, k, pid);
        WokenBurstsCount(init, Drop(wakeups, k), pid);
        DropOne(wakeups, k, pid);
      }
    }
  }

  /** A wake-up that follows a proper burst follows none of the earlier ones. */
  lemma EarlierStillWoken(init: seq<Burst>, b: Burst, wakeups: seq<Wakeup>, k: nat, pid: Pid)
    requires InOrder(init + [b]) && b.pid == pid && b.start < b.end
    requires k < |wakeups| && Follow(wakeups[k], b) && AllWoken(init, wakeups, pid)
    ensures AllWoken(init, Drop(wakeups, k), pid)
  {
    forall i | 0 <= i < |init| && init[i].pid == pid
      ensures Woken(init[i], Drop(wakeups, k))
    {
      assert (init + [b])[i].end <= (init + [b])[|init|].start;
      assert Woken(init[i], wakeups);
      var m :| 0 <= m < |wakeups| && Follow(wakeups[m], init[i]);
      assert m != k;
      assert Drop(wakeups, k)[if m < k then m else m - 1] == wakeups[m];
    }
  }

  lemma {:induction false} AllButLastCount(bursts: seq<Burst>, wakeups: seq<Wakeup>, pid: Pid)
    requires InOrder(bursts) && AfterBursts(wakeups) && AllWokenButLast(bursts, wakeups, pid)
    ensures RunTime(bursts, pid) - LastBurst(bursts, pid) <= BurstsBeforeWakeups(wakeups, pid)
    decreases |bursts|
  {
    if bursts == [] {
      SleepNotNegative(wakeups, pid);
    } else {
      var init, b := bursts[..|bursts| - 1], bursts[|bursts| - 1];
      if b.pid == pid {
        assert forall i :: 0 <= i < |init| && init[i].pid == pid ==> bursts[i].pid == bursts[|bursts| - 1].pid == pid;
        WokenBurstsCount(init, wakeups, pid);
      } else {
        AllButLastCount(init, wakeups, pid);
      }
    }
  }

  // ----- over runs

  /** The bursts and the wake-ups since the thread is tracked. */
  function TrackedBursts(w: World, pid: Pid): seq<Burst>
    requires pid in w.tracked && w.tracked[pid].0 <= |w.bursts|
  {
    w.bursts[w.tracked[pid].0..]
  }

  function TrackedWakeups(w: World, pid: Pid): seq<Wakeup>
    requires pid in w.tracked && w.tracked[pid].1 <= |w.wakeups|
  {
    w.wakeups[w.tracked[pid].1..]
  }

  /** The counters as the table is read, and their order. */
  lemma CountersOf(w: World, es: seq<Event>, who: Pid -> Identity, filter: nat, pid: Pid)
    requires Fresh(w) && Feasible(w, es, who, filter) && pid in Run(w, es, who, filter).metrics
    ensures var r := Run(w, es, who, filter);
            var m, bursts, wakeups := r.metrics[pid], TrackedBursts(r, pid), TrackedWakeups(r, pid);
            && InOrder(bursts) && AfterBursts(wakeups)
            && m.totalRun == RunTime(bursts, pid) >= 0
            && m.totalSleep == SleepTime(wakeups, pid) + BurstsBeforeWakeups(wakeups, pid)
            && m.wakeups == WakeCount(wakeups, pid)
            && SleepTime(wakeups, pid) >= 0 && BurstsBeforeWakeups(wakeups, pid) >= 0
  {
    CountersMeasureHistory(w, es, who, filter, pid);
    RunOrdered(w, es, who, filter);
    var r := Run(w, es, who, filter);
    var bursts, wakeups := TrackedBursts(r, pid), TrackedWakeups(r, pid);
    assert InOrder(bursts) && AfterBursts(wakeups);
    RunTimeNotNegative(bursts, pid);
    SleepNotNegative(wakeups, pid);
  }

  /**
   When the compaction rule fires, by what happened: the bursts are longer than 5 ms per
   wake-up, and seven times what counts as sleep, which includes each burst a wake-up
   follows, is less than three times the run time.
   */
  lemma CompactionByHistory(
      w: World, es: seq<Event>, who: Pid -> Identity, filter: nat, pid: Pid, network: nat, disk: nat)
    requires Fresh(w) && Feasible(w, es, who, filter) && pid in Run(w, es, who, filter).metrics
    ensures var r := Run(w, es, who, filter);
            var m, bursts, wakeups := r.metrics[pid], TrackedBursts(r, pid), TrackedWakeups(r, pid);
            && m.totalRun >= 0 && m.totalSleep >= 0 && m.wakeups >= 0
            && (ClassifyThread(m.totalRun, m.totalSleep, m.wakeups, network, disk).1 == Compaction <==>
                WakeCount(wakeups, pid) > 0 && disk <= 50
                && RunTime(bursts, pid) > 5_000_000 * WakeCount(wakeups, pid)
                && 7 * (SleepTime(wakeups, pid) + BurstsBeforeWakeups(wakeups, pid)) < 3 * RunTime(bursts, pid))
  {
    CountersOf(w, es, who, filter, pid);
    var m := Run(w, es, who, filter).metrics[pid];
    CompactionIff(m.totalRun, m.totalSleep, m.wakeups, network, disk);
  }

  /**
   A thread that ends each burst by sleeping: when the table is read, a wake-up follows all
   its completed bursts but possibly the last. The sleep total then contains the run time
   but that burst, so the rule fires only if that one burst outweighs the rest.
   */
  lemma SleeperIsCompactionByLastBurstOnly(
      w: World, es: seq<Event>, who: Pid -> Identity, filter: nat, pid: Pid, network: nat, disk: nat)
    requires Fresh(w) && Feasible(w, es, who, filter) && pid in Run(w, es, who, filter).metrics
    requires var r := Run(w, es, who, filter);
             AllWokenButLast(TrackedBursts(r, pid), TrackedWakeups(r, pid), pid)
    ensures var r := Run(w, es, who, filter);
            var m, bursts, wakeups := r.metrics[pid], TrackedBursts(r, pid), TrackedWakeups(r, pid);
            && m.totalRun >= 0 && m.totalSleep >= 0 && m.wakeups >= 0
            && BurstsBeforeWakeups(wakeups, pid) >= RunTime(bursts, pid) - LastBurst(bursts, pid)
            && (ClassifyThread(m.totalRun, m.totalSleep, m.wakeups, network, disk).1 == Compaction ==>
                7 * LastBurst(bursts, pid) > 4 * RunTime(bursts, pid) + 7 * SleepTime(wakeups, pid))
  {
    CountersOf(w, es, who, filter, pid);
    CompactionByHistory(w, es, who, filter, pid, network, disk);
    var r := Run(w, es, who, filter);
    AllButLastCount(TrackedBursts(r, pid), TrackedWakeups(r, pid), pid);
  }

  /** With the last burst followed by a wake-up as well, the rule never fires. */
  lemma WokenSleeperIsNeverCompaction(
      w: World, es: seq<Event>, who: Pid -> Identity, filter: nat, pid: Pid, network: nat, disk: nat)
    requires Fresh(w) && Feasible(w, es, who, filter) && pid in Run(w, es, who, filter).metrics
    requires var r := Run(w, es, who, filter);
             AllWoken(TrackedBursts(r, pid), TrackedWakeups(r, pid), pid)
    ensures var m := Run(w, es, who, filter).metrics[pid];
            && m.totalSleep >= m.totalRun >= 0 && m.wakeups >= 0
            && ClassifyThread(m.totalRun, m.totalSleep, m.wakeups, network, disk).1 != Compaction
  {
    CountersOf(w, es, who, filter, pid);
    CompactionByHistory(w, es, who, filter, pid, network, disk);
    var r := Run(w, es, who, filter);
    WokenBurstsCount(TrackedBursts(r, pid), TrackedWakeups(r, pid), pid);
  }

  // ----- a sleeper that the rule does recognise

  /** Thread 7 runs for 1 ms, sleeps for 1 ms, runs for 100 ms and sleeps when the table is read. */
  const SLEEPER_RUN: seq<Event> :=
    [Switch(0, 1_000_000, 7, true), Switch(0, 2_000_000, IDLE, true), WakeUp(7, 3_000_000),
     Switch(0, 3_000_000, 7, true), Switch(0, 103_000_000, IDLE, true)]

  /** The history and the table after the first `k` of these events. */
  function SleeperWorld(k: nat, me: Identity): World {
    var b1, b2 := Burst(7, 1_000_000, 2_000_000), Burst(7, 3_000_000, 103_000_000);
    var u := Wakeup(7, 3_000_000, 1_000_000, 2_000_000);
    if k == 0 then World(1, [IDLE], [1], [], [], map[], map[], map[])
    else if k == 1 then
      World(1_000_000, [7], [1_000_000], [], [], map[], map[7 := (0, 0)],
            map[7 := ThreadMetrics(0, 0, 0, 0, 1_000_000, me)])
    else if k == 2 then
      World(2_000_000, [IDLE], [2_000_000], [b1], [], map[7 := b1], map[7 := (0, 0)],
            map[7 := ThreadMetrics(1_000_000, 0, 0, 1_000_000, 1_000_000, me)])
    else if k == 3 then
      World(3_000_000, [IDLE], [2_000_000], [b1], [u], map[7 := b1], map[7 := (0, 0)],
            map[7 := ThreadMetrics(1_000_000, 2_000_000, 1, 1_000_000, 1_000_000, me)])
    else if k == 4 then
      World(3_000_000, [7], [3_000_000], [b1], [u], map[7 := b1], map[7 := (0, 0)],
            map[7 := ThreadMetrics(1_000_000, 2_000_000, 1, 1_000_000, 3_000_000, me)])
    else
      World(103_000_000, [IDLE], [103_000_000], [b1, b2], [u], map[7 := b2], map[7 := (0, 0)],
            map[7 := ThreadMetrics(101_000_000, 2_000_000, 1, 100_000_000, 3_000_000, me)])
  }

  ghost predicate Leads(w: World, e: Event, r: World, who: Pid -> Identity) {
    Formed(w) && Possible(w, e) && Observe(w, e, who, 0) == r
  }

  lemma SleeperSwitchIn(k: nat, who: Pid -> Identity)
    requires k == 0 || k == 3
    ensures Leads(SleeperWorld(k, who(IDLE)), SLEEPER_RUN[k], SleeperWorld(k + 1, who(IDLE)), who)
  {
  }

  lemma SleeperFirstSleep(who: Pid -> Identity)
    ensures Leads(SleeperWorld(1, who(IDLE)), SLEEPER_RUN[1], SleeperWorld(2, who(IDLE)), who)
  {
  }

  lemma SleeperSecondSleep(who: Pid -> Identity)
    ensures Leads(SleeperWorld(4, who(IDLE)), SLEEPER_RUN[4], SleeperWorld(5, who(IDLE)), who)
  {
  }

  lemma SleeperWakes(who: Pid -> Identity)
    ensures Leads(SleeperWorld(2, who(IDLE)), SLEEPER_RUN[2], SleeperWorld(3, who(IDLE)), who)
  {
  }

  lemma SleeperStep(k: nat, who: Pid -> Identity)
    requires k < 5
    ensures Leads(SleeperWorld(k, who(IDLE)), SLEEPER_RUN[k], SleeperWorld(k + 1, who(IDLE)), who)
  {
    if k == 2 {
      SleeperWakes(who);
    } else if k == 0 || k == 3 {
      SleeperSwitchIn(k, who);
    } else if k == 1 {
      SleeperFirstSleep(who);
    } else {
      SleeperSecondSleep(who);
    }
  }

  lemma {:induction false} LeadsThrough(worlds: seq<World>, es: seq<Event>, who: Pid -> Identity)
    requires |worlds| == |es| + 1 && Formed(worlds[|es|])
    requires forall k :: 0 <= k < |es| ==> Leads(worlds[k], es[k], worlds[k + 1], who)
    ensures Formed(worlds[0]) && Feasible(worlds[0], es, who, 0) && Run(worlds[0], es, who, 0) == worlds[|es|]
    decreases |es|
  {
    if es != [] {
      assert Leads(worlds[0], es[0], worlds[1], who);
      var later, rest := worlds[1..], es[1..];
      forall k | 0 <= k < |rest|
        ensures Leads(later[k], rest[k], later[k + 1], who)
      {
        assert Leads(worlds[k + 1], es[k + 1], worlds[k + 1 + 1], who);
      }
      LeadsThrough(worlds[1..], es[1..], who);
    }
  }

  /** It ends each burst by sleeping, and is taken for compaction. */
  lemma SleeperCanBeCompaction(who: Pid -> Identity)
    ensures var w := SleeperWorld(0, who(IDLE));
            && Fresh(w) && Feasible(w, SLEEPER_RUN, who, 0)
            && var r := Run(w, SLEEPER_RUN, who, 0);
               && 7 in r.metrics && AllWokenButLast(TrackedBursts(r, 7), TrackedWakeups(r, 7), 7)
               && r.metrics[7].totalRun == 101_000_000 && r.metrics[7].totalSleep == 2_000_000
               && r.metrics[7].wakeups == 1
    ensures ClassifyThread(101_000_000, 2_000_000, 1, 0, 0) == (Background, Compaction)
  {
    CompactionIff(101_000_000, 2_000_000, 1, 0, 0);
    var worlds := seq(6, k requires 0 <= k < 6 => SleeperWorld(k, who(IDLE)));
    forall k | 0 <= k < 5
      ensures Leads(worlds[k], SLEEPER_RUN[k], worlds[k + 1], who)
    {
      SleeperStep(k, who);
    }
    LeadsThrough(worlds, SLEEPER_RUN, who);
    var r := worlds[5];
    assert Follow(r.wakeups[0], r.bursts[0]);
  }
}
