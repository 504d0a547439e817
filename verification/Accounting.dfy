/**
 Stage 1c's tracepoint handlers, and what their counters measure.

 The kernel's side is a history: who runs on each CPU since when, the bursts completed so
 far, and for each wake-up the burst it follows. At `sched_switch` the current task is
 still the one switched out. Times are ktime values, positive and non-decreasing.
 */
module Accounting {
  type Pid = nat
  type Cpu = nat

  /** Idle has pid 0. */
  const IDLE: Pid := 0

  datatype Identity = Identity(tgid: nat, comm: string)

  // ----- the handlers

  /** The counters are u64; with non-decreasing times no subtraction of theirs wraps. */
  datatype ThreadMetrics = ThreadMetrics(
    totalRun: int, totalSleep: int, wakeups: int, maxRun: int, lastSwitch: nat, who: Identity)

  type MetricsMap = map<Pid, ThreadMetrics>

  function RecordRun(m: ThreadMetrics, now: nat): ThreadMetrics {
    if m.lastSwitch > 0 then
      var run := now - m.lastSwitch;
      m.(totalRun := m.totalRun + run, maxRun := if run > m.maxRun then run else m.maxRun)
    else m
  }

  function SwitchedOut(metrics: MetricsMap, now: nat, prev: Pid): MetricsMap {
    if prev != IDLE && prev in metrics then metrics[prev := RecordRun(metrics[prev], now)] else metrics
  }

  /** `filter` 0 traces everything; `room` says whether a new entry fits in the table. */
  function SwitchedIn(
      metrics: MetricsMap, now: nat, next: Pid, current: Identity, filter: nat, room: bool): MetricsMap
  {
    if next == IDLE then metrics
    else if next in metrics then metrics[next := metrics[next].(lastSwitch := now)]
    else if (filter == 0 || current.tgid == filter) && room then
      metrics[next := ThreadMetrics(0, 0, 0, 0, now, current)]
    else metrics
  }

  function Woke(metrics: MetricsMap, now: nat, pid: Pid): MetricsMap {
    if pid !in metrics then metrics
    else
      var m := metrics[pid];
      var m := m.(wakeups := m.wakeups + 1);
      metrics[pid := if m.lastSwitch > 0 then m.(totalSleep := m.totalSleep + (now - m.lastSwitch)) else m]
  }

  /** The BPF hash table and the handlers that update it. */
  class MetricsTable {
    var metrics: MetricsMap
    const filter: nat

    constructor (filter: nat)
      ensures metrics == map[] && this.filter == filter
    {
      metrics, this.filter := map[], filter;
    }

    method OnSwitch(now: nat, prev: Pid, next: Pid, current: Identity, room: bool)
      modifies this`metrics
      ensures metrics == SwitchedIn(SwitchedOut(old(metrics), now, prev), now, next, current, filter, room)
    {
      if prev > 0 && prev in metrics {
        var m := metrics[prev];
        if m.lastSwitch > 0 {
          var run := now - m.lastSwitch;
          m := m.(totalRun := m.totalRun + run);
          if run > m.maxRun {
            m := m.(maxRun := run);
          }
        }
        metrics := metrics[prev := m];
      }
      if next > 0 {
        if next in metrics {
          metrics := metrics[next := metrics[next].(lastSwitch := now)];
        } else if (filter == 0 || current.tgid == filter) && room {
          metrics := metrics[next := ThreadMetrics(0, 0, 0, 0, now, current)];
        }
      }
    }

    method OnWakeup(now: nat, pid: Pid)
      modifies this`metrics
      ensures metrics == Woke(old(metrics), now, pid)
    {
      if pid in metrics {
        var m := metrics[pid];
        m := m.(wakeups := m.wakeups + 1);
        if m.lastSwitch > 0 {
          m := m.(totalSleep := m.totalSleep + (now - m.lastSwitch));
        }
        metrics := metrics[pid := m];
      }
    }
  }

  // ----- the kernel's history

  datatype Burst = Burst(pid: Pid, start: nat, end: nat)

  /** A wake-up at `at` of a thread whose latest burst began at `start` and ended, or is still going, at `end`. */
  datatype Wakeup = Wakeup(pid: Pid, at: nat, start: nat, end: nat)

  /**
   `on` and `since` say who runs on each CPU and from when; `last` is each thread's latest
   completed burst. `tracked` gives, for each thread in the table, the numbers of bursts and
   wake-ups recorded before the thread entered it.
   */
  datatype World = World(
    clock: nat,
    on: seq<Pid>,
    since: seq<nat>,
    bursts: seq<Burst>,
    wakeups: seq<Wakeup>,
    last: map<Pid, Burst>,
    tracked: map<Pid, (nat, nat)>,
    metrics: MetricsMap)

  datatype Event =
    | Switch(cpu: Cpu, now: nat, next: Pid, room: bool)
    | WakeUp(pid: Pid, now: nat)

  predicate Runs(w: World, pid: Pid) {
    pid in w.on
  }

  predicate Possible(w: World, e: Event) {
    && w.clock <= e.now
    && match e
       case Switch(cpu, _, next, _) => cpu < |w.on| && next != w.on[cpu] && (next == IDLE || !Runs(w, next))
       case WakeUp(pid, _) => pid != IDLE
  }

  ghost predicate Formed(w: World) {
    && |w.on| == |w.since| && 0 < w.clock
    && (forall c :: 0 <= c < |w.since| ==> 0 < w.since[c] <= w.clock)
    && (forall c, d :: 0 <= c < d < |w.on| && w.on[c] != IDLE ==> w.on[c] != w.on[d])
    && (forall p <- w.last :: w.last[p].pid == p && w.last[p].start <= w.last[p].end <= w.clock)
    && w.tracked.Keys == w.metrics.Keys && IDLE !in w.metrics
    && (forall p <- w.tracked :: w.tracked[p].0 <= |w.bursts| && w.tracked[p].1 <= |w.wakeups|)
  }

  /** One tracepoint: the kernel's history moves on and the handlers run. */
  function Observe(w: World, e: Event, who: Pid -> Identity, filter: nat): World
    requires |w.on| == |w.since| && Possible(w, e)
    requires e.Switch? ==> w.since[e.cpu] <= e.now
  {
    match e
    case Switch(cpu, now, next, room) =>
      var prev := w.on[cpu];
      var burst := Burst(prev, w.since[cpu], now);
      var bursts := if prev == IDLE then w.bursts else w.bursts + [burst];
      var metrics := SwitchedIn(SwitchedOut(w.metrics, now, prev), now, next, who(prev), filter, room);
      w.(clock := now, on := w.on[cpu := next], since := w.since[cpu := now], bursts := bursts,
         last := if prev == IDLE then w.last else w.last[prev := burst],
         tracked := if next in metrics && next !in w.metrics
                    then w.tracked[next := (|bursts|, |w.wakeups|)] else w.tracked,
         metrics := metrics)
    case WakeUp(pid, now) =>
      w.(clock := now, metrics := Woke(w.metrics, now, pid), wakeups := w.wakeups + Follows(w, pid, now))
  }

  /** The CPU a thread runs on. */
  function CpuOf(w: World, pid: Pid): (c: Cpu)
    requires Runs(w, pid)
    ensures c < |w.on| && w.on[c] == pid
  {
    Index(w.on, pid)
  }

  function Index(s: seq<Pid>, pid: Pid): (i: nat)
    requires pid in s
    ensures i < |s| && s[i] == pid
  {
    if s[0] == pid then 0 else 1 + Index(s[1..], pid)
  }

  /** The record of a wake-up; a thread that never ran leaves none. */
  function Follows(w: World, pid: Pid, now: nat): seq<Wakeup>
    requires |w.on| == |w.since|
  {
    if Runs(w, pid) then [Wakeup(pid, now, w.since[CpuOf(w, pid)], now)]
    else if pid in w.last then [Wakeup(pid, now, w.last[pid].start, w.last[pid].end)]
    else []
  }

  // ----- what the history adds up to

  function RunTime(bursts: seq<Burst>, pid: Pid): int {
    if bursts == [] then 0
    else
      var b := bursts[|bursts| - 1];
      RunTime(bursts[..|bursts| - 1], pid) + if b.pid == pid then b.end - b.start else 0
  }

  function Longest(bursts: seq<Burst>, pid: Pid): int {
    if bursts == [] then 0
    else
      var b, before := bursts[|bursts| - 1], Longest(bursts[..|bursts| - 1], pid);
      if b.pid == pid && b.end - b.start > before then b.end - b.start else before
  }

  /** No burst of the thread is longer, and one is as long unless all are empty. */
  lemma {:induction false} LongestIs(bursts: seq<Burst>, pid: Pid)
    ensures forall i :: 0 <= i < |bursts| && bursts[i].pid == pid ==>
              bursts[i].end - bursts[i].start <= Longest(bursts, pid)
    ensures Longest(bursts, pid) >= 0
    ensures Longest(bursts, pid) > 0 ==>
              exists i :: 0 <= i < |bursts| && bursts[i].pid == pid
                          && bursts[i].end - bursts[i].start == Longest(bursts, pid)
  {
    if bursts != [] {
      var n := |bursts| - 1;
      LongestIs(bursts[..n], pid);
      assert forall i :: 0 <= i < n ==> bursts[..n][i] == bursts[i];
      if bursts[n].pid != pid || bursts[n].end - bursts[n].start <= Longest(bursts[..n], pid) {
        if Longest(bursts[..n], pid) > 0 {
          var i :| 0 <= i < n && bursts[..n][i].pid == pid
                   && bursts[..n][i].end - bursts[..n][i].start == Longest(bursts[..n], pid);
          assert bursts[i].pid == pid;
        }
      }
    }
  }

  function WakeCount(wakeups: seq<Wakeup>, pid: Pid): nat {
    if wakeups == [] then 0
    else WakeCount(wakeups[..|wakeups| - 1], pid) + if wakeups[|wakeups| - 1].pid == pid then 1 else 0
  }

  /** Off-CPU time between the latest burst and each wake-up. */
  function SleepTime(wakeups: seq<Wakeup>, pid: Pid): int {
    if wakeups == [] then 0
    else
      var u := wakeups[|wakeups| - 1];
      SleepTime(wakeups[..|wakeups| - 1], pid) + if u.pid == pid then u.at - u.end else 0
  }

  /** The length of the burst each wake-up follows. */
  function BurstsBeforeWakeups(wakeups: seq<Wakeup>, pid: Pid): int {
    if wakeups == [] then 0
    else
      var u := wakeups[|wakeups| - 1];
      BurstsBeforeWakeups(wakeups[..|wakeups| - 1], pid) + if u.pid == pid then u.end - u.start else 0
  }

  // ----- the counters are those sums

  /** The counters are the sums over the bursts and wake-ups. */
  ghost predicate Counts(m: ThreadMetrics, bursts: seq<Burst>, wakeups: seq<Wakeup>, pid: Pid) {
    && m.totalRun == RunTime(bursts, pid)
    && m.maxRun == Longest(bursts, pid)
    && m.wakeups == WakeCount(wakeups, pid)
    && m.totalSleep == SleepTime(wakeups, pid) + BurstsBeforeWakeups(wakeups, pid)
  }

  /** The remembered time is the start of the thread's latest burst. */
  ghost predicate Remembers(w: World, pid: Pid)
    requires Formed(w) && pid in w.metrics
  {
    var lastSwitch := w.metrics[pid].lastSwitch;
    && (Runs(w, pid) ==> lastSwitch == w.since[CpuOf(w, pid)])
    && (!Runs(w, pid) ==> pid in w.last && lastSwitch == w.last[pid].start)
    && 0 < lastSwitch <= w.clock
  }

  ghost predicate Accounted(w: World, pid: Pid)
    requires Formed(w) && pid in w.metrics
  {
    && Counts(w.metrics[pid], w.bursts[w.tracked[pid].0..], w.wakeups[w.tracked[pid].1..], pid)
    && Remembers(w, pid)
  }

  ghost predicate AllAccounted(w: World)
    requires Formed(w)
  {
    forall pid <- w.metrics :: Accounted(w, pid)
  }

  lemma SumsAppendBurst(bursts: seq<Burst>, b: Burst, k: nat, pid: Pid)
    requires k <= |bursts|
    ensures var r := (bursts + [b])[k..];
            && RunTime(r, pid) == RunTime(bursts[k..], pid) + (if b.pid == pid then b.end - b.start else 0)
            && Longest(r, pid) == (if b.pid == pid && b.end - b.start > Longest(bursts[k..], pid)
                                   then b.end - b.start else Longest(bursts[k..], pid))
  {
    assert (bursts + [b])[k..] == bursts[k..] + [b];
    assert (bursts[k..] + [b])[..|bursts| - k] == bursts[k..];
  }

  lemma SumsAppendWakeup(wakeups: seq<Wakeup>, u: Wakeup, k: nat, pid: Pid)
    requires k <= |wakeups|
    ensures var r := (wakeups + [u])[k..];
            && WakeCount(r, pid) == WakeCount(wakeups[k..], pid) + (if u.pid == pid then 1 else 0)
            && SleepTime(r, pid) == SleepTime(wakeups[k..], pid) + (if u.pid == pid then u.at - u.end else 0)
            && BurstsBeforeWakeups(r, pid)
               == BurstsBeforeWakeups(wakeups[k..], pid) + (if u.pid == pid then u.end - u.start else 0)
  {
    assert (wakeups + [u])[k..] == wakeups[k..] + [u];
    assert (wakeups[k..] + [u])[..|wakeups| - k] == wakeups[k..];
  }

  lemma ObserveFormed(w: World, e: Event, who: Pid -> Identity, filter: nat)
    requires Formed(w) && Possible(w, e)
    ensures Formed(Observe(w, e, who, filter))
  {
  }

  lemma OnlyCpu(w: World, c: Cpu)
    requires Formed(w) && c < |w.on| && w.on[c] != IDLE
    ensures Runs(w, w.on[c]) && CpuOf(w, w.on[c]) == c
  {
  }

  /** Who runs where after a switch: the next task on that CPU, the others where they were. */
  lemma RunsAfterSwitch(w: World, r: World, cpu: Cpu, next: Pid, pid: Pid)
    requires Formed(w) && Formed(r) && cpu < |w.on| && r.on == w.on[cpu := next] && pid != IDLE
    ensures Runs(r, pid) && pid == next ==> CpuOf(r, pid) == cpu
    ensures Runs(r, pid) && pid != next ==>
              Runs(w, pid) && CpuOf(w, pid) == CpuOf(r, pid) && CpuOf(r, pid) != cpu
    ensures !Runs(r, pid) ==> pid != next && (Runs(w, pid) ==> w.on[cpu] == pid && CpuOf(w, pid) == cpu)
  {
    assert r.on[cpu] == next && forall c: Cpu :: c < |w.on| && c != cpu ==> r.on[c] == w.on[c];
    if Runs(r, pid) {
      if pid == next {
        OnlyCpu(r, cpu);
      } else {
        OnlyCpu(w, CpuOf(r, pid));
      }
    }
  }

  lemma SwitchRemembers(w: World, e: Event, who: Pid -> Identity, filter: nat, pid: Pid)
    requires Formed(w) && Possible(w, e) && e.Switch?
    requires Formed(Observe(w, e, who, filter)) && pid in Observe(w, e, who, filter).metrics
    requires pid in w.metrics ==> Remembers(w, pid)
    ensures Remembers(Observe(w, e, who, filter), pid)
  {
    RunsAfterSwitch(w, Observe(w, e, who, filter), e.cpu, e.next, pid);
  }

  /** What the switch handler adds to a thread's counters: the burst that ends, if it is its own. */
  lemma SwitchCounts(w: World, e: Event, who: Pid -> Identity, filter: nat, pid: Pid)
    requires Formed(w) && Possible(w, e) && e.Switch? && pid in w.metrics && Remembers(w, pid)
    ensures var m, r := w.metrics[pid], Observe(w, e, who, filter).metrics;
            pid in r &&
            if w.on[e.cpu] != pid then r[pid] == m.(lastSwitch := r[pid].lastSwitch)
            else r[pid] == RecordRun(m, e.now) && m.lastSwitch == w.since[e.cpu] > 0
  {
    if w.on[e.cpu] == pid {
      OnlyCpu(w, e.cpu);
    }
  }

  lemma SwitchAccounts(w: World, e: Event, who: Pid -> Identity, filter: nat, pid: Pid)
    requires Formed(w) && Possible(w, e) && e.Switch? && pid in w.metrics && Accounted(w, pid)
    requires Formed(Observe(w, e, who, filter))
    ensures pid in Observe(w, e, who, filter).metrics && Accounted(Observe(w, e, who, filter), pid)
  {
    SwitchCounts(w, e, who, filter, pid);
    SwitchRemembers(w, e, who, filter, pid);
    SumsAppendBurst(w.bursts, Burst(w.on[e.cpu], w.since[e.cpu], e.now), w.tracked[pid].0, pid);
  }

  lemma NewThreadAccounts(w: World, e: Event, who: Pid -> Identity, filter: nat, pid: Pid)
    requires Formed(w) && Possible(w, e) && e.Switch? && pid !in w.metrics
    requires Formed(Observe(w, e, who, filter)) && pid in Observe(w, e, who, filter).metrics
    ensures Accounted(Observe(w, e, who, filter), pid)
  {
    SwitchRemembers(w, e, who, filter, pid);
    var r := Observe(w, e, who, filter);
    assert r.bursts[r.tracked[pid].0..] == [] && r.wakeups[r.tracked[pid].1..] == [];
  }

  /** What the wake-up handler adds is the record's burst and off-CPU time. */
  lemma WokeCounts(w: World, woken: Pid, now: nat, pid: Pid)
    requires Formed(w) && pid in w.metrics && Remembers(w, pid) && w.clock <= now
    ensures var m, r := w.metrics[pid], Woke(w.metrics, now, woken)[pid];
            if woken != pid then r == m && forall u <- Follows(w, woken, now) :: u.pid != pid
            else
              var u := Follows(w, pid, now);
              |u| == 1 && u[0].pid == pid
              && r == m.(wakeups := m.wakeups + 1,
                         totalSleep := m.totalSleep + (u[0].at - u[0].end) + (u[0].end - u[0].start))
  {
  }

  lemma WakeUpAccounts(w: World, e: Event, who: Pid -> Identity, filter: nat, pid: Pid)
    requires Formed(w) && Possible(w, e) && e.WakeUp? && pid in w.metrics && Accounted(w, pid)
    requires Formed(Observe(w, e, who, filter))
    ensures pid in Observe(w, e, who, filter).metrics && Accounted(Observe(w, e, who, filter), pid)
  {
    var u := Follows(w, e.pid, e.now);
    WokeCounts(w, e.pid, e.now, pid);
    if u == [] {
      assert w.wakeups + u == w.wakeups;
    } else {
      SumsAppendWakeup(w.wakeups, u[0], w.tracked[pid].1, pid);
      assert w.wakeups + u == w.wakeups + [u[0]];
    }
  }

  lemma ObserveAccounts(w: World, e: Event, who: Pid -> Identity, filter: nat)
    requires Formed(w) && Possible(w, e) && AllAccounted(w)
    ensures Formed(Observe(w, e, who, filter)) && AllAccounted(Observe(w, e, who, filter))
  {
    ObserveFormed(w, e, who, filter);
    forall pid <- Observe(w, e, who, filter).metrics
      ensures Accounted(Observe(w, e, who, filter), pid)
    {
      if e.WakeUp? {
        WakeUpAccounts(w, e, who, filter, pid);
      } else if pid in w.metrics {
        SwitchAccounts(w, e, who, filter, pid);
      } else {
        NewThreadAccounts(w, e, who, filter, pid);
      }
    }
  }

  // ----- CPU time is not invented

  function SumOf(s: seq<nat>): nat {
    if s == [] then 0 else s[0] + SumOf(s[1..])
  }

  lemma {:induction false} SumUpdate(s: seq<nat>, i: nat, v: nat)
    requires i < |s|
    ensures SumOf(s[i := v]) + s[i] == SumOf(s) + v
  {
    if i == 0 {
      assert s[0 := v][1..] == s[1..];
    } else {
      assert s[i := v][1..] == s[1..][i - 1 := v];
      SumUpdate(s[1..], i - 1, v);
    }
  }

  lemma {:induction false} SumBound(s: seq<nat>, bound: nat)
    requires forall i :: 0 <= i < |s| ==> s[i] <= bound
    ensures SumOf(s) <= |s| * bound
  {
    if s != [] {
      SumBound(s[1..], bound);
      assert |s| * bound == bound + |s[1..]| * bound;
    }
  }

  /** The run time of all bursts together. */
  function AllRunTime(bursts: seq<Burst>): int {
    if bursts == [] then 0
    else
      var b := bursts[|bursts| - 1];
      AllRunTime(bursts[..|bursts| - 1]) + (b.end - b.start)
  }

  /** From a common beginning, the bursts fit on the CPUs up to their last switches. */
  ghost predicate Fits(w: World, base: int)
    requires Formed(w)
  {
    && AllRunTime(w.bursts) + base <= SumOf(w.since)
    && forall i :: 0 <= i < |w.bursts| ==> w.bursts[i].start <= w.bursts[i].end
  }

  lemma ObserveFits(w: World, e: Event, who: Pid -> Identity, filter: nat, base: int)
    requires Formed(w) && Possible(w, e) && Fits(w, base)
    ensures Formed(Observe(w, e, who, filter)) && Fits(Observe(w, e, who, filter), base)
  {
    ObserveFormed(w, e, who, filter);
    if e.Switch? {
      SumUpdate(w.since, e.cpu, e.now);
      var r := Observe(w, e, who, filter);
      if r.bursts != w.bursts {
        assert r.bursts[..|w.bursts|] == w.bursts;
      }
    }
  }

  predicate Different(pids: seq<Pid>) {
    forall i, j :: 0 <= i < j < |pids| ==> pids[i] != pids[j]
  }

  /** The run times of different threads, each from some burst on, are at most those of all bursts. */
  function RunTimes(bursts: seq<Burst>, pids: seq<Pid>): int {
    if pids == [] then 0 else RunTime(bursts, pids[0]) + RunTimes(bursts, pids[1..])
  }

  lemma {:induction false} RunTimesAppend(bursts: seq<Burst>, b: Burst, pids: seq<Pid>)
    requires Different(pids)
    ensures RunTimes(bursts + [b], pids) == RunTimes(bursts, pids) + if b.pid in pids then b.end - b.start else 0
  {
    if pids != [] {
      assert (bursts + [b])[..|bursts|] == bursts;
      assert Different(pids[1..]);
      RunTimesAppend(bursts, b, pids[1..]);
      assert b.pid in pids <==> b.pid == pids[0] || b.pid in pids[1..];
      assert b.pid == pids[0] ==> b.pid !in pids[1..];
    }
  }

  lemma {:induction false} NothingRan(pids: seq<Pid>)
    ensures RunTimes([], pids) == 0
  {
    if pids != [] {
      NothingRan(pids[1..]);
    }
  }

  lemma {:induction false} RunTimesWithinAll(bursts: seq<Burst>, pids: seq<Pid>)
    requires Different(pids)
    requires forall i :: 0 <= i < |bursts| ==> bursts[i].start <= bursts[i].end
    ensures RunTimes(bursts, pids) <= AllRunTime(bursts)
  {
    if bursts == [] {
      NothingRan(pids);
    } else {
      var init, b := bursts[..|bursts| - 1], bursts[|bursts| - 1];
      RunTimesWithinAll(init, pids);
      assert bursts == init + [b];
      RunTimesAppend(init, b, pids);
    }
  }

  lemma {:induction false} SuffixRunsLess(bursts: seq<Burst>, k: nat, pid: Pid)
    requires k <= |bursts|
    requires forall i :: 0 <= i < |bursts| ==> bursts[i].start <= bursts[i].end
    ensures 0 <= RunTime(bursts[k..], pid) <= RunTime(bursts, pid)
  {
    if bursts != [] {
      var n := |bursts| - 1;
      if k <= n {
        assert bursts[k..][..n - k] == bursts[..n][k..];
        SuffixRunsLess(bursts[..n], k, pid);
      } else {
        assert bursts[..n][n..] == [];
        SuffixRunsLess(bursts[..n], n, pid);
      }
    }
  }

  function TotalRuns(metrics: MetricsMap, pids: seq<Pid>): int
    requires forall p <- pids :: p in metrics
  {
    if pids == [] then 0 else metrics[pids[0]].totalRun + TotalRuns(metrics, pids[1..])
  }

  lemma {:induction false} TotalsWithinRunTimes(w: World, pids: seq<Pid>)
    requires Formed(w) && AllAccounted(w) && forall p <- pids :: p in w.metrics
    requires forall i :: 0 <= i < |w.bursts| ==> w.bursts[i].start <= w.bursts[i].end
    ensures TotalRuns(w.metrics, pids) <= RunTimes(w.bursts, pids)
  {
    if pids != [] {
      assert Accounted(w, pids[0]);
      SuffixRunsLess(w.bursts, w.tracked[pids[0]].0, pids[0]);
      TotalsWithinRunTimes(w, pids[1..]);
    }
  }

  // ----- over every run

  ghost predicate Feasible(w: World, es: seq<Event>, who: Pid -> Identity, filter: nat)
    requires Formed(w)
    decreases |es|
  {
    es == [] ||
      (Possible(w, es[0])
       && (ObserveFormed(w, es[0], who, filter); Feasible(Observe(w, es[0], who, filter), es[1..], who, filter)))
  }

  ghost function Run(w: World, es: seq<Event>, who: Pid -> Identity, filter: nat): (r: World)
    requires Formed(w) && Feasible(w, es, who, filter)
    ensures Formed(r)
    decreases |es|
  {
    if es == [] then w
    else ObserveFormed(w, es[0], who, filter); Run(Observe(w, es[0], who, filter), es[1..], who, filter)
  }

  /** Profiling starts with an empty table, and the history with what runs then. */
  ghost predicate Fresh(w: World) {
    && Formed(w) && w.metrics == map[] && w.bursts == [] && w.wakeups == []
    && forall c :: 0 <= c < |w.since| ==> w.since[c] == w.clock
  }

  lemma {:induction false} RunAccounts(w: World, es: seq<Event>, who: Pid -> Identity, filter: nat, base: int)
    requires Formed(w) && Feasible(w, es, who, filter) && AllAccounted(w) && Fits(w, base)
    ensures var r := Run(w, es, who, filter);
            AllAccounted(r) && Fits(r, base) && |r.on| == |w.on|
    decreases |es|
  {
    if es != [] {
      ObserveAccounts(w, es[0], who, filter);
      ObserveFits(w, es[0], who, filter, base);
      RunAccounts(Observe(w, es[0], who, filter), es[1..], who, filter, base);
    }
  }

  /**
   After any sequence of switches and wake-ups, for every thread in the table: total_run_ns
   is its completed CPU time and max_run_ns its longest completed burst since it was first
   tracked, and total_sleep_ns is its off-CPU time before its wake-ups plus the bursts those
   wake-ups follow.
   */
  lemma CountersMeasureHistory(w: World, es: seq<Event>, who: Pid -> Identity, filter: nat, pid: Pid)
    requires Fresh(w) && Feasible(w, es, who, filter)
    requires pid in Run(w, es, who, filter).metrics
    ensures var r := Run(w, es, who, filter);
            Counts(r.metrics[pid], r.bursts[r.tracked[pid].0..], r.wakeups[r.tracked[pid].1..], pid)
  {
    FreshFits(w);
    RunAccounts(w, es, who, filter, |w.on| * w.clock);
    assert Accounted(Run(w, es, who, filter), pid);
  }

  lemma FreshFits(w: World)
    requires Fresh(w)
    ensures AllAccounted(w) && Fits(w, |w.on| * w.clock)
  {
    SumAtLeast(w.since, w.clock);
  }

  /**
   N CPUs provide at most N times the elapsed time: the run times of all tracked threads
   together are at most the number of CPUs times the time since profiling started.
   */
  lemma RunTimeIsBounded(w: World, es: seq<Event>, who: Pid -> Identity, filter: nat, pids: seq<Pid>)
    requires Fresh(w) && Feasible(w, es, who, filter) && Different(pids)
    requires forall p <- pids :: p in Run(w, es, who, filter).metrics
    ensures var r := Run(w, es, who, filter);
            TotalRuns(r.metrics, pids) <= |w.on| * (r.clock - w.clock)
  {
    FreshFits(w);
    RunAccounts(w, es, who, filter, |w.on| * w.clock);
    var r := Run(w, es, who, filter);
    FittingRunTime(r, |w.on| * w.clock, pids);
    TimesDifference(|w.on|, r.clock, w.clock);
  }

  lemma TimesDifference(n: nat, x: int, y: int)
    ensures n * (x - y) == n * x - n * y
  {
  }

  lemma FittingRunTime(r: World, base: int, pids: seq<Pid>)
    requires Formed(r) && AllAccounted(r) && Fits(r, base) && Different(pids)
    requires forall p <- pids :: p in r.metrics
    ensures TotalRuns(r.metrics, pids) <= |r.on| * r.clock - base
  {
    TotalsWithinRunTimes(r, pids);
    RunTimesWithinAll(r.bursts, pids);
    SumBound(r.since, r.clock);
  }

  lemma {:induction false} SumAtLeast(s: seq<nat>, bound: nat)
    requires forall i :: 0 <= i < |s| ==> bound <= s[i]
    ensures |s| * bound <= SumOf(s)
  {
    if s != [] {
      SumAtLeast(s[1..], bound);
      assert |s| * bound == bound + |s[1..]| * bound;
    }
  }

  // ----- whose name is recorded

  /**
   The handler asks for the current task's tgid and comm when it first tracks the task
   switched in, and the current task is then the one switched out. So a new entry carries
   the thread's own identity exactly when the two are the same.
   */
  lemma RecordedIdentity(w: World, e: Event, who: Pid -> Identity, filter: nat)
    requires Formed(w) && Possible(w, e) && e.Switch?
    requires e.next !in w.metrics && e.next in Observe(w, e, who, filter).metrics
    ensures Observe(w, e, who, filter).metrics[e.next].who == who(e.next) <==> who(w.on[e.cpu]) == who(e.next)
  {
  }

  /** The event brings the thread into the table, if it is not there yet. */
  predicate Admits(w: World, e: Event, who: Pid -> Identity, filter: nat, pid: Pid) {
    && e.Switch? && e.cpu < |w.on| && e.next == pid != IDLE && e.room
    && (filter == 0 || who(w.on[e.cpu]).tgid == filter)
  }

  ghost predicate EverAdmitted(w: World, es: seq<Event>, who: Pid -> Identity, filter: nat, pid: Pid)
    requires Formed(w) && Feasible(w, es, who, filter)
    decreases |es|
  {
    es != [] &&
      (Admits(w, es[0], who, filter, pid)
       || (ObserveFormed(w, es[0], who, filter);
           EverAdmitted(Observe(w, es[0], who, filter), es[1..], who, filter, pid)))
  }

  /**
   Which threads are tracked: the `--pid` filter tests the process of the task switched out
   as well. A thread enters the table if and only if it is once switched in, with room for
   it, right after a task of the process asked for; its own process plays no part.
   */
  lemma {:induction false} TrackedIffAdmitted(
      w: World, es: seq<Event>, who: Pid -> Identity, filter: nat, pid: Pid)
    requires Formed(w) && Feasible(w, es, who, filter)
    ensures pid in Run(w, es, who, filter).metrics <==> pid in w.metrics || EverAdmitted(w, es, who, filter, pid)
    decreases |es|
  {
    if es != [] {
      ObserveFormed(w, es[0], who, filter);
      TrackedIffAdmitted(Observe(w, es[0], who, filter), es[1..], who, filter, pid);
      assert pid in Observe(w, es[0], who, filter).metrics
        <==> pid in w.metrics || Admits(w, es[0], who, filter, pid);
    }
  }

  /**
   So the only thread of the process asked for never enters the table: it cannot be switched
   in after itself.
   */
  lemma {:induction false} FilterMissesOnlyThread(
      w: World, es: seq<Event>, who: Pid -> Identity, filter: nat, pid: Pid)
    requires Formed(w) && Feasible(w, es, who, filter) && filter != 0 && pid !in w.metrics
    requires forall p :: who(p).tgid == filter ==> p == pid
    ensures pid !in Run(w, es, who, filter).metrics
    decreases |es|
  {
    if es != [] {
      ObserveFormed(w, es[0], who, filter);
      FilterMissesOnlyThread(Observe(w, es[0], who, filter), es[1..], who, filter, pid);
    }
  }

  /** And a thread of another process enters after one of the process asked for. */
  lemma FilterAdmitsForeignThread(who: Pid -> Identity, filter: nat)
    requires filter != 0 && who(7).tgid == filter && who(8).tgid != filter && who(IDLE).tgid != filter
    ensures var w := World(1, [7, IDLE], [1, 1], [], [], map[], map[], map[]);
            Fresh(w) && Admits(w, Switch(0, 2, 8, true), who, filter, 8)
            && Possible(w, Switch(0, 2, 8, true)) && 8 in Observe(w, Switch(0, 2, 8, true), who, filter).metrics
  {
  }

  /** For example, a thread first seen after idle is entered under the idle task's name. */
  lemma IdleNameIsRecorded(who: Pid -> Identity)
    requires who(IDLE) == Identity(0, "swapper/0") && who(7) == Identity(7, "bio_aof")
    ensures var w := World(1, [IDLE], [1], [], [], map[], map[], map[]);
            var e := Switch(0, 2, 7, true);
            Fresh(w) && Possible(w, e) && Observe(w, e, who, 0).metrics[7].who.comm == "swapper/0"
  {
  }
}
