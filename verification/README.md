# Thread-aware schedulers: model and proofs

The repository holds four hand-written sched_ext schedulers in BPF C (`redis_aware`,
`rocksdb_aware`, `nginx_aware`, `db_aware`), a pipeline that profiles an application's
threads into a manifest, checks manifests against a ground truth and generates schedulers
from them with three templates, a loader for the schedulers, and a database simulation
used as a workload. This project models these in Dafny and proves what they do.

Verify it with `dafny verify dfyconfig.toml`.

## The layers

- **The machine** (`Machine`, `Scenarios`, `Simulation`, `Conservation`, `Tracking`, `Kicks`,
  `Progress`, `Interleaving`, `Effects`). All schedulers and templates are instances of one step
  system with N CPUs, local queues, shared queues, the per-CPU maps, the class cache, a
  clock and a log of inserts, moves and kicks. Theorems are about every run.
- **The callbacks as written** (`BpfOps`). Classes whose methods update arrays, maps and
  queues in place, with the scan loops and early exits of the C code. Each method is proved
  equal to the corresponding function of the machine.
- **Names and generated code** (`Comm`, `CSource`, `Generator`, `Schedulers`). The emitted
  C text, a parser for it, a short-circuit evaluator over the 16-byte name buffer with its
  indeterminate bytes, the generator's loops, and the comparison of generated with
  hand-written schedulers over every schedule.
- **Producers and checkers of manifests** (`Profiler`, `Accounting`, `Behaviour`, `Verify`,
  `CheckedSchedulers`, `Evaluate`), joined to the machine: what a profile or a verdict says
  about the scheduler.
- **Two self-contained algorithms** (`Loader`, `Latency`).

## What is assumed about the kernel

A callback is one atomic step. A wake-up is `select_cpu` followed by `enqueue`, and
`enqueue` is skipped when `select_cpu` has inserted the task. An idle CPU has no current
task. A CPU whose local queue is empty is refilled from GLOBAL first and, only when that
yields nothing, by `dispatch`. `running` and `stopping` bracket every execution on one CPU,
and `stopping` comes before the `enqueue` of a task that stays runnable. Inserts go to the
tail; a move takes the first queued task that may run on that CPU. An update of an array map
at index 256 or more has no effect. Which CPU is chosen, whether it is idle, whether task
storage can be had, where tasks may run, when they run, block, are preempted and are renamed
is left to the environment, so the theorems hold for every choice.

`Interleaving` drops atomicity for the maps: `running` samples the clock, then sets the
flag, then the timestamp, and the scan reads flag and timestamp separately after sampling
the clock once.

## Findings

Properties that the code does not have, each with a proved condition or counterexample:

- *Renames.* `redis_aware` and `rocksdb_aware` read the name anew in every callback. Their
  flags agree with the kernel throughout a run if and only if no rename changes the kind of
  a task while it runs on a CPU below 256, and their queues are pure if and only if none does
  so while the task is queued (`Tracking.RecordsAgreeWithKernel`). Both kinds of failure are
  reached from the start, and a wrong flag makes the next foreground wake-up kick a task
  that is not background (`Tracking.WrongFlagIsReachable`, `Tracking.WrongQueueIsReachable`,
  `Kicks.WrongKickIsReachable`).
- *Starvation.* The manifests say background work is deprioritised "without starving" it
  (`pipeline/examples/nginx_manifest.json:7`). Over every run the dispatch turns of CPUs a
  background task may use that pass while it waits are at most what was ahead of it plus the
  foreground arrivals (`Progress.WaitingBackgroundAdvances`). So it progresses when these
  turns outnumber the arrivals, and arrivals that keep pace with them starve it
  (`Progress.BackgroundProgress`, `Progress.StarvationNeedsArrivals`,
  `Progress.StarvationIsReachable`).
- *Premature kicks.* With atomic callbacks the u64 subtraction of the scan never wraps and
  the decision is right. With interleaved accesses there are two races. The scan compares a
  start time with a clock value sampled earlier, so the subtraction can wrap
  (`Interleaving.PrematureKick`). And `running` sets the flag before the time, so the scan can
  pair the new flag with the time of an earlier task, without any wrap
  (`Interleaving.StaleTimeKick`). Either way a task can be kicked the moment it starts. The
  error is one-sided: once its flag is read, a CPU whose task is overdue is always kicked, and
  `Interleaving.DecisionIsRightIff` says exactly when a kick is not premature.
- *Template A.* It is said to derive from `db_aware` (`pipeline/stage3_generate_scheduler.py:159`),
  but `db_aware` treats unmatched names as background and template A as foreground. No
  manifest makes the two equivalent (`Schedulers.NoManifestGivesDbAware`).
- *Missing prefix.* A `null` comm_prefix is allowed by the schema, but generation fails on
  it: the default `len(prefix)` is evaluated even when a length is given
  (`Generator.UsableManifests`).
- *Pattern C against A and B.* They agree about background if and only if no foreground and
  background prefixes are comparable (`Generator.PatternsAgreeIffNoOverlap`).
- *Profiles.* A group prefix of one role can start the name of a thread of the other: `io`
  and `iouring`, or, after stripping trailing digits, `io1` and `io2`. The roles of a
  profile survive if and only if no group of the role that wins in the pattern does so
  (`Profiler.ProfileIsExactIff`).
- *Whose name is recorded.* At `sched_switch` the current task is the one switched out, so a
  newly tracked thread is entered under another thread's name and tgid unless the two agree
  (`Accounting.RecordedIdentity`). The `--pid` filter tests the same tgid: a thread is tracked
  if and only if it is once switched in right after a task of that process, so threads of
  other processes enter, and the only thread of a process never does
  (`Accounting.TrackedIffAdmitted`, `Accounting.FilterMissesOnlyThread`).
- *Sleep time.* The comment at `pipeline/stage1c_dynamic_profiler.py:122-123` says the time
  was taken when the task was switched out. It is taken when the task is switched in, so the
  sleep total includes the burst before each wake-up. A thread that ends each burst by
  sleeping has at most its last burst without a wake-up, and is recognised as compaction
  only if that burst outweighs the rest: 7 last > 4 run + 7 sleep
  (`Behaviour.SleeperIsCompactionByLastBurstOnly`). If its last burst is followed by a wake-up as
  well it is never recognised (`Behaviour.WokenSleeperIsNeverCompaction`); if it sleeps when the
  table is read it can be (`Behaviour.SleeperCanBeCompaction`).
- *Scores.* Two manifests give equivalent schedulers if and only if they cover each other's
  entries, as far as a name can match them (`CheckedSchedulers.SameSchedulerIff`). F1 = 1 implies
  this for patterns A and B, and leaves the foreground entries open for pattern C
  (`CheckedSchedulers.PerfectF1ForPatternC`). A lower score does not refute it: the checker's key
  contains the identification type, which the generator ignores, so interchangeable manifests
  can score 0 (`CheckedSchedulers.ZeroF1CanMeanSameScheduler`).
- *Safety.* A safety count of 0 does not mean that the true foreground threads are safe: it
  compares keys, and a generated background prefix `redis` captures `redis-server`
  (`CheckedSchedulers.ZeroSafetyCanMisclassify`, `CheckedSchedulers.BroadRedisPrefix`). They are
  safe if and only if no true foreground and generated background prefixes of at most 15
  bytes are comparable, for pattern C unless a generated foreground entry wins
  (`CheckedSchedulers.ForegroundIsSafeIff`).
- *Extra keys.* The metric's extras leave out the foreground keys of the truth and the loop's
  do not, so a violation is counted once by each loop, as a failure and as a warning
  (`Verify.CountersAgreeWithMetrics` gives the exact relation).
- *Draining order.* The comment "drained only when GLOBAL is empty" (`nginx_aware.bpf.c:173`)
  is a promise of the framework, not of `dispatch`; it is part of the assumptions above, and
  holds per CPU: GLOBAL may still hold tasks that may not run there (`Progress.DispatchPriority`).

## Model

| member | source | states |
|---|---|---|
| `Comm.ChainMeaning` | workloads/redis/redis_aware.bpf.c:59-80 | The exact value of a byte-comparison chain for every pattern and every name: undefined exactly when the pattern goes on after matching the name and its NUL, otherwise the prefix test |
| `Comm.PrefixChainMeaning` | workloads/redis/redis_aware.bpf.c:52-83 | A chain for a pattern without NUL, of any length, never leaves the 16-byte buffer, never reads a byte after the NUL, and decides whether the name starts with the pattern |
| `Comm.EmbeddedNulIsUnsafe` | pipeline/stage3_generate_scheduler.py:72-82 | A pattern that goes on after a NUL has a name on which the chain reads an indeterminate byte |
| `Comm.BranchMeaning` | pipeline/stage3_generate_scheduler.py:95-103 | A branch of the if-chain decides for the names that start with its pattern and leaves the others to the rest |
| `CSource.CheckTextRoundTrip` | pipeline/stage3_generate_scheduler.py:72-82 | The emitted text parses as a C conjunction if and only if the pattern is non-empty and plain (characters of the C source character set but quote, backslash and newline: printable ASCII, tab, vertical tab, form feed), and it then says exactly the intended comparisons |
| `CSource.FirstText` | pipeline/stage3_generate_scheduler.py:79-82 | The text for one character |
| `CSource.NextText` | pipeline/stage3_generate_scheduler.py:79-82 | The text for one character more: the separator with its indentation, the index and the quoted character |
| `Manifest.Slice` | pipeline/stage3_generate_scheduler.py:78 | `prefix[:length]` is the prefix of length min(length, len(prefix)); a negative bound counts from the end; without a bound it is the whole |
| `Generator.ExtractPrefixes` | pipeline/stage3_generate_scheduler.py:38-69 | The loop with its `seen` set refines the recursive extraction, for both roles, including the error of a `null` prefix |
| `Generator.ExtractMeaning` | pipeline/stage3_generate_scheduler.py:38-69 | Extraction fails exactly when an entry of the role has a `null` prefix; otherwise it lists exactly the keys of the role, each once |
| `Generator.ExtractGrows` | pipeline/stage3_generate_scheduler.py:40-52 | A longer manifest only adds keys at the end: they are in order of first occurrence |
| `Generator.TruncatedMeaning` | pipeline/stage3_generate_scheduler.py:46-47 | Which bytes an entry compares: the first `length` of the prefix, all of it without a length or with a longer one, none without a prefix |
| `Generator.GenerateCommCheck` | pipeline/stage3_generate_scheduler.py:72-82 | The loop produces the text that `CheckTextRoundTrip` reads back |
| `Generator.GenerateArms` | pipeline/stage3_generate_scheduler.py:95-100 | One `if` per extracted key, in order |
| `Generator.GenerateScheduler` | pipeline/stage3_generate_scheduler.py:608-660 | The code emitted for a manifest and a pattern, or the error |
| `Generator.UsableManifests` | pipeline/stage3_generate_scheduler.py:38-154 | A scheduler is generated if and only if no prefix is `null`; the if-chain of its classification code is C if and only if what is compared is non-empty and plain, for pattern C in both roles |
| `Generator.GeneratedMeaning` | pipeline/stage3_generate_scheduler.py:85-154 | The generator preserves meaning: on every name and on a failed read the emitted if-chain is defined and gives the class the manifest asks for (prefix match, foreground by default; in pattern C foreground entries first) |
| `Generator.PatternsDifferOnDoubleMatches` | pipeline/stage3_generate_scheduler.py:108-142 | Pattern C and patterns A/B disagree about background exactly on the names that match entries of both roles |
| `Generator.PatternsAgreeIffNoOverlap` | pipeline/stage3_generate_scheduler.py:85-154 | The TASK_CPU_HOG set of pattern C is the background set of patterns A/B if and only if no truncated foreground and background prefixes (of at most 15 bytes) are comparable |
| `Machine.Scan` | workloads/redis/redis_aware.bpf.c:108-119 | The scan yields the first CPU below its limit with a set flag and an elapsed u64 difference of at least BG_MIN_RUN_NS, or nothing when there is none |
| `Machine.FirstFor` | workloads/redis/redis_aware.bpf.c:137-143 | A move takes the first queued task that may run on the CPU, none exactly when no queued task may |
| `Machine.StepShape` | workloads/redis/redis_aware.bpf.c:137-143 | Every event keeps the set of queues, the map sizes and the CPUs |
| `BpfOps.BooleanTests` | workloads/redis/redis_aware.bpf.c:52-83 | The three hand-written boolean tests and everything patterns A and B generate are two-valued and always defined |
| `BpfOps.SelectivePreemption.constructor` | workloads/redis/redis_aware.bpf.c:166-174 | `init`: the two queues, cleared maps; the initial state of the machine |
| `BpfOps.SelectivePreemption.IsBackground` | workloads/redis/redis_aware.bpf.c:52-83 | Reads the name and decides the task's class |
| `BpfOps.SelectivePreemption.SelectCpu` | workloads/redis/redis_aware.bpf.c:85-123 | `select_cpu` with its scan loop over the maps has exactly the effect of the machine's step: idle insert with its slice, or at most one kick |
| `BpfOps.SelectivePreemption.KickOverdue` | workloads/redis/redis_aware.bpf.c:104-120 | The scan loop with its early exit logs the kick that the machine's scan finds, and changes nothing else |
| `BpfOps.SelectivePreemption.Enqueue` | workloads/redis/redis_aware.bpf.c:125-135 | `enqueue`: the whole new state |
| `BpfOps.SelectivePreemption.Dispatch` | workloads/redis/redis_aware.bpf.c:137-143 | `dispatch`: the whole new state, foreground queue first |
| `BpfOps.SelectivePreemption.Running` | workloads/redis/redis_aware.bpf.c:145-154 | `running`: flag and timestamp of this CPU, no effect from index 256 on |
| `BpfOps.SelectivePreemption.Stopping` | workloads/redis/redis_aware.bpf.c:156-164 | `stopping`: clears the flag |
| `BpfOps.SimpleDualDsq.constructor` | workloads/db_sim/db_aware.bpf.c:68-77 | `init`: the two queues |
| `BpfOps.SimpleDualDsq.IsBackground` | workloads/db_sim/db_aware.bpf.c:25-34 | Reads the name and decides the queue's class; a failed read is not a query task |
| `BpfOps.SimpleDualDsq.SelectCpu` | workloads/db_sim/db_aware.bpf.c:36-49 | `select_cpu`: idle insert with its slice, otherwise nothing |
| `BpfOps.SimpleDualDsq.Enqueue` | workloads/db_sim/db_aware.bpf.c:51-58 | `enqueue`: the whole new state |
| `BpfOps.SimpleDualDsq.Dispatch` | workloads/db_sim/db_aware.bpf.c:60-66 | `dispatch`: the whole new state |
| `BpfOps.AsymmetricTaskStorage.constructor` | workloads/nginx/nginx_aware.bpf.c:198-202 | `init`: the background queue, cleared maps, no stored class |
| `BpfOps.AsymmetricTaskStorage.ClassifyTask` | workloads/nginx/nginx_aware.bpf.c:80-111 | `classify_task`: the stored class, or the class of the name, stored if storage can be had |
| `BpfOps.AsymmetricTaskStorage.SelectCpu` | workloads/nginx/nginx_aware.bpf.c:113-157 | `select_cpu` with the scan bounded by min(nr_cpus, 256): exactly the machine's step |
| `BpfOps.AsymmetricTaskStorage.KickOverdue` | workloads/nginx/nginx_aware.bpf.c:134-154 | The scan loop over min(nr_cpus, 256) entries: the same |
| `BpfOps.AsymmetricTaskStorage.Enqueue` | workloads/nginx/nginx_aware.bpf.c:159-169 | `enqueue` to the background queue or GLOBAL: the whole new state |
| `BpfOps.AsymmetricTaskStorage.Dispatch` | workloads/nginx/nginx_aware.bpf.c:171-175 | `dispatch` from the background queue: the whole new state |
| `BpfOps.AsymmetricTaskStorage.Running` | workloads/nginx/nginx_aware.bpf.c:177-186 | `running`: class cache, flag and timestamp |
| `BpfOps.AsymmetricTaskStorage.Stopping` | workloads/nginx/nginx_aware.bpf.c:188-196 | `stopping`: class cache and flag |
| `Conservation.StepPlaces` | workloads/redis/redis_aware.bpf.c:85-143 | One event changes the number of places of a task by its waking and blocking only |
| `Conservation.StepConserves` | workloads/nginx/nginx_aware.bpf.c:113-175 | Every event keeps: a runnable task is in exactly one place, any other task in none |
| `Conservation.EveryRunConserves` | workloads/redis/redis_aware.bpf.c:85-143 | In every state of every run of every policy a runnable task is in exactly one local queue, shared queue or running slot, under any renames and storage failures |
| `Tracking.StepKeepsFlags` | workloads/redis/redis_aware.bpf.c:145-164 | Every event but a kind-changing rename of a task running on a tracked CPU keeps the flags and timestamps equal to what runs |
| `Tracking.FlipBreaksFlags` | workloads/redis/redis_aware.bpf.c:156-164 | Such a rename makes the flags wrong at once |
| `Tracking.StepKeepsPure` | workloads/redis/redis_aware.bpf.c:125-143 | Every event but a kind-changing rename of a queued task keeps each queue to its kind |
| `Tracking.FlipBreaksPure` | workloads/redis/redis_aware.bpf.c:125-143 | Such a rename puts a task of the wrong kind in a queue at once |
| `Tracking.RecordsAgreeWithKernel` | workloads/redis/redis_aware.bpf.c:145-164 | For every run from the start: in all its states, for every CPU below 256, the flag is 1 exactly when the current task is background and the timestamp is then its switch-in time and not in the future, if and only if no rename of the run changes the kind of a task running on such a CPU; and each queue holds only its kind in all states if and only if no rename changes the kind of a queued task |
| `Tracking.CachedRunsNeverFlip` | workloads/nginx/nginx_aware.bpf.c:80-111 | With a cached class for every runnable task no rename flips anything |
| `Tracking.CachingSurvivesRenames` | workloads/nginx/nginx_aware.bpf.c:177-196 | For the caching scheduler the records agree in every run, whatever is renamed when, if each wake-up can allocate storage in one of its callbacks |
| `Tracking.WrongFlagIsReachable` | workloads/redis/redis_aware.bpf.c:156-164 | A run from the start after which a flag is set although its task is not background |
| `Tracking.WrongQueueIsReachable` | workloads/redis/redis_aware.bpf.c:125-135 | A run from the start after which the background queue holds a task that is not background |
| `Kicks.KickableIffOverdue` | workloads/redis/redis_aware.bpf.c:108-115 | With exact flags the scan's test is true exactly for a CPU whose background task has run at least 2 ms, and the u64 subtraction does not wrap |
| `Kicks.ScanFindsLowestOverdue` | workloads/redis/redis_aware.bpf.c:104-120 | The scan finds the lowest-numbered overdue CPU, and nothing exactly when there is none |
| `Kicks.BoundedScanIsFullScan` | workloads/nginx/nginx_aware.bpf.c:134-154 | The scan of min(nr_cpus, 256) entries finds what a scan of all 256 would |
| `Kicks.WakeKicksRight` | workloads/nginx/nginx_aware.bpf.c:134-154 | A wake-up without an idle CPU kicks at most once: for a foreground task (nginx: a TASK_NGINX) the lowest-numbered overdue CPU, none exactly when no CPU is overdue; for other tasks none |
| `Kicks.EveryReachableKickIsRight` | workloads/redis/redis_aware.bpf.c:104-120 | The same in every state reached by a run without a kind-changing rename of a running task; queued and sleeping tasks may be renamed at will |
| `Kicks.EveryCachedKickIsRight` | workloads/nginx/nginx_aware.bpf.c:134-154 | For the caching scheduler the same in every run with any renames, if each wake-up can allocate storage |
| `Kicks.KickIsReachable` | workloads/redis/redis_aware.bpf.c:104-120 | Kicks happen: a run from the start after which the next foreground wake-up kicks CPU 0 |
| `Kicks.WrongKickIsReachable` | workloads/redis/redis_aware.bpf.c:104-120 | A run from the start, with a rename of a running task, after which a foreground wake-up kicks a task that is not background |
| `Interleaving.DecisionIsRightIff` | workloads/redis/redis_aware.bpf.c:104-120 | With map accesses interleaved freely: once the flag of a CPU is read, an overdue task is always kicked, so every wrong decision is a premature kick; the decision is right if and only if the time read does not look long, or the task has set its flag and is overdue; a task that has only entered `running` is never overdue |
| `Interleaving.DecisionInAnyInterleaving` | workloads/redis/redis_aware.bpf.c:104-120 | In particular it is right whenever the entry read belongs to a task that was running and recorded when the scan sampled the clock; for a task recorded with a later time the subtraction wraps and the CPU is kicked at once |
| `Interleaving.FlagSeenMeansBackground` | workloads/redis/redis_aware.bpf.c:145-164 | In every interleaving a flag is seen set exactly while a background task is between setting and clearing it |
| `Interleaving.PrematureKick` | workloads/redis/redis_aware.bpf.c:104-120 | A concrete interleaving with a wrapped subtraction in which a task is kicked the moment it starts |
| `Interleaving.StaleTimeKick` | workloads/redis/redis_aware.bpf.c:145-154 | Another without any wrap: the flag of the new task is read with the time of an earlier one |
| `Interleaving.UndisturbedScan` | workloads/redis/redis_aware.bpf.c:108-119 | Undisturbed, the fine-grained scan ends and is the atomic one: it kicks exactly the first CPU whose flag is set and whose time looks long, if there is one |
| `Progress.DispatchPriority` | workloads/redis/redis_aware.bpf.c:137-143 | A CPU that runs dry gets the first foreground task that may run there; a background task only when no foreground task may; the rest of the queues is unchanged |
| `Progress.WaitingForegroundAdvances` | workloads/rocksdb_dbbench/rocksdb_aware.bpf.c:124-142 | Over every run: each dispatch turn on a CPU it may use brings a waiting foreground task one place forward, whatever arrives |
| `Progress.ForegroundBypassBound` | workloads/redis/redis_aware.bpf.c:125-143 | With k tasks ahead a foreground task has left its queue after k + 1 such turns |
| `Progress.LeavesByTurn` | workloads/db_sim/db_aware.bpf.c:60-66 | A task leaves a queue only by a dispatch turn of a CPU it may use, and to that CPU |
| `Progress.WaitingBackgroundAdvances` | workloads/redis/redis_aware.bpf.c:137-143 | Over every run: while a background task waits, what is ahead of it at the end plus the turns of CPUs it may use is at most what was ahead plus the foreground arrivals |
| `Progress.BackgroundProgress` | workloads/nginx/nginx_aware.bpf.c:159-175 | It has left its queue after (foreground queue length) + j + 1 turns of CPUs it may use, and one more for each foreground arrival |
| `Progress.BackgroundCanStarve` | workloads/db_sim/db_aware.bpf.c:60-66 | With arrivals that keep pace: runs with any number of turns in which it waits throughout |
| `Progress.StarvationNeedsArrivals` | workloads/redis/redis_aware.bpf.c:137-143 | In any run in which it waits the turns are at most what was ahead of it plus the arrivals |
| `Progress.StarvationIsReachable` | workloads/redis/redis_aware.bpf.c:137-143 | Such runs exist from the initial state of every policy that knows a background and another name |
| `Simulation.StepCorresponds` | pipeline/stage3_generate_scheduler.py:252-410 | Policies that agree up to queue numbers have the same events enabled and make the same step: inserts, slices, moves, kicks, maps |
| `Simulation.RunCorresponds` | pipeline/stage3_generate_scheduler.py:252-410 | The same for whole runs |
| `Simulation.SameHostsAreTraceEquivalent` | pipeline/stage3_generate_scheduler.py:413-599 | The same schedules are possible from the start and end in corresponding states and logs |
| `Simulation.SameNumbersSameStates` | pipeline/stage3_generate_scheduler.py:413-599 | With the same queue numbers the corresponding states are equal |
| `Schedulers.RedisMeaning` | workloads/redis/redis_aware.bpf.c:52-83 | `is_redis_background`: one of four prefixes |
| `Schedulers.RocksdbMeaning` | workloads/rocksdb_dbbench/rocksdb_aware.bpf.c:72-82 | `is_rocksdb_background`: the prefix `rocksdb:` |
| `Schedulers.NginxMeaning` | workloads/nginx/nginx_aware.bpf.c:88-102 | The name part of `classify_task`: `nginx`, then `stress-ng`, otherwise normal |
| `Schedulers.DbMeaning` | workloads/db_sim/db_aware.bpf.c:25-34 | `is_query_task`: the prefix `query` |
| `Schedulers.RedisManifestMatches` | pipeline/examples/redis_manifest.json:8-105 | Which names the redis manifest calls background |
| `Schedulers.RocksdbManifestMatches` | pipeline/examples/rocksdb_manifest.json:8-33 | Which names the rocksdb manifest calls background |
| `Schedulers.NginxManifestMatches` | pipeline/examples/nginx_manifest.json:8-33 | Which names the nginx manifest calls foreground and background |
| `Schedulers.GeneratedRedisIsRedisAware` | pipeline/stage3_generate_scheduler.py:252-410 | On every machine and every schedule, template B with the redis manifest and `redis_aware` reach the same state with the same log |
| `Schedulers.GeneratedRocksdbIsRocksdbAware` | workloads/rocksdb_dbbench/rocksdb_aware.bpf.c:72-163 | Template B with the rocksdb manifest is trace equivalent to `rocksdb_aware` up to queue ids |
| `Schedulers.GeneratedNginxIsNginxAware` | pipeline/stage3_generate_scheduler.py:413-599 | Template C with the nginx manifest and `nginx_aware` reach the same state with the same log |
| `Schedulers.PatternAMisclassifies` | pipeline/stage3_generate_scheduler.py:159-249 | Whatever the manifest, template A and `db_aware` treat one of the names "q" and "query" differently |
| `Schedulers.NoManifestGivesDbAware` | pipeline/stage3_generate_scheduler.py:159-249 | So no manifest makes template A trace equivalent to `db_aware`, from which it is said to derive |
| `Schedulers.EquivalentHostsClassifyAlike` | workloads/redis/redis_aware.bpf.c:125-135 | Trace equivalent schedulers agree about background on every name, and about every class if they cache it |
| `Effects.EveryStepAdds` | workloads/redis/redis_aware.bpf.c:85-143 | What each event adds to the log: on an idle CPU the local insert with the slice of the task's kind; otherwise at most one kick, only for a task that may kick, then the insert into the queue of its kind with the slice of its kind; a move is of a task of that queue to that CPU; nothing else |
| `Effects.HandWrittenNumbers` | workloads/redis/redis_aware.bpf.c:93-135 | On every machine, in every run: background tasks get 20 ms, others 5 ms (3 ms in `db_aware`), in the queues 0x200/0x201, 0x100/0x101, GLOBAL/0x201 and 0/1; `db_aware` never kicks |
| `Effects.TemplateNumbers` | pipeline/stage3_generate_scheduler.py:182-234 | The same for the three templates; template A has 3 ms for foreground and never kicks |
| `Effects.RedisKicks` | workloads/redis/redis_aware.bpf.c:104-120 | On every machine with a CPU a run exists that ends in a kick, for any foreground and background names |
| `Effects.RocksdbKicks` | workloads/rocksdb_dbbench/rocksdb_aware.bpf.c:103-119 | The same for `rocksdb_aware` |
| `Effects.NginxKicks` | workloads/nginx/nginx_aware.bpf.c:134-154 | The same for `nginx_aware` |
| `Effects.TemplateKicks` | pipeline/stage3_generate_scheduler.py:305-343 | The same for templates B and C and any names the manifest tells apart |
| `Effects.AsymmetricSurvivesRenames` | workloads/nginx/nginx_aware.bpf.c:80-111 | `nginx_aware` and template C keep flags and queues exact in every run, whatever is renamed, if storage can be had |
| `Effects.RedisFlagGoesWrong` | workloads/redis/redis_aware.bpf.c:156-164 | `redis_aware` has a run with a wrong flag, storage or no storage |
| `Profiler.GroupPrefixMeaning` | pipeline/stage1c_dynamic_profiler.py:233-237 | Every name is r, then underscores, then digits, with r not ending in an underscore and r with the underscores not ending in a digit; the group prefix is r, or the whole name when r is empty |
| `Profiler.GroupPrefixIs` | pipeline/stage1c_dynamic_profiler.py:233-237 | That splitting is unique: any such r gives the group prefix |
| `Profiler.NumberedIoThread` | pipeline/stage1c_dynamic_profiler.py:233-237 | For example `io_thd_1` belongs to `io_thd` |
| `Profiler.GroupThreads` | pipeline/stage1c_dynamic_profiler.py:227-248 | The grouping loop: for each key the names of its threads in order, and no other key |
| `Profiler.BuildManifest` | pipeline/stage1c_dynamic_profiler.py:222-275 | One entry per group and no other, each once, with the group's role, prefix, length and identification type |
| `Profiler.EntryMeaning` | pipeline/stage1c_dynamic_profiler.py:252-273 | A group's entry has its role, its whole prefix and the length of it, and is `comm_exact` if and only if all its threads have one name, else `comm_prefix` |
| `Profiler.ProfileIsUsable` | pipeline/stage1c_dynamic_profiler.py:260-275 | The manifest makes a scheduler if and only if the group prefixes can be written into C |
| `Profiler.ProfiledScheduler` | pipeline/stage1c_dynamic_profiler.py:222-275 | Exactly what the scheduler generated from any profile does with any name |
| `Profiler.ProfileIsRespected` | pipeline/stage1c_dynamic_profiler.py:222-275 | Every thread seen as background is background to patterns A/B; every thread seen as foreground is TASK_FOREGROUND to pattern C |
| `Profiler.ProfileIsExactIff` | pipeline/stage1c_dynamic_profiler.py:227-248 | Every profiled thread gets back the role it was seen in if and only if no group of the winning role captures a thread of the other |
| `Profiler.SharedGroupIsMisjudged` | pipeline/stage1c_dynamic_profiler.py:233-248 | Two threads of different roles in one group: one of them is misjudged, and which |
| `Profiler.NumberedThreadsShareGroup` | pipeline/stage1c_dynamic_profiler.py:233-237 | For example `io1` and `io2` |
| `Accounting.MetricsTable.OnSwitch` | pipeline/stage1c_dynamic_profiler.py:78-110 | The switch handler's update of the table |
| `Accounting.MetricsTable.OnWakeup` | pipeline/stage1c_dynamic_profiler.py:113-128 | The wake-up handler's update of the table |
| `Accounting.CountersMeasureHistory` | pipeline/stage1c_dynamic_profiler.py:78-128 | After any events on any number of CPUs, for each tracked thread: run total and longest run are those of its completed bursts since it was tracked; sleep total is true off-CPU time before wake-ups plus the bursts those wake-ups follow |
| `Accounting.LongestIs` | pipeline/stage1c_dynamic_profiler.py:89-90 | The longest burst: none of the thread is longer, and one is as long |
| `Accounting.RunTimeIsBounded` | pipeline/stage1c_dynamic_profiler.py:83-92 | The run totals of different threads together are at most the number of CPUs times the elapsed time |
| `Accounting.RecordedIdentity` | pipeline/stage1c_dynamic_profiler.py:94-107 | A new entry carries the thread's own name and tgid if and only if they equal those of the task switched out |
| `Accounting.IdleNameIsRecorded` | pipeline/stage1c_dynamic_profiler.py:94-107 | For example a thread first seen after idle is entered under the idle task's name |
| `Accounting.TrackedIffAdmitted` | pipeline/stage1c_dynamic_profiler.py:67-106 | Over every run: a thread is in the table if and only if it is once switched in, with room for it, right after a task of the process the filter names (any task without a filter) |
| `Accounting.FilterMissesOnlyThread` | pipeline/stage1c_dynamic_profiler.py:67-106 | The only thread of that process is never tracked |
| `Accounting.FilterAdmitsForeignThread` | pipeline/stage1c_dynamic_profiler.py:67-106 | A thread of another process can be |
| `Behaviour.BackgroundIff` | pipeline/stage1c_dynamic_profiler.py:183-219 | When the heuristic calls a thread background, in whole numbers |
| `Behaviour.HabitIff` | pipeline/stage1c_dynamic_profiler.py:189-210 | When it calls a thread idle, an event loop, an I/O worker or a batch thread |
| `Behaviour.CompactionIff` | pipeline/stage1c_dynamic_profiler.py:212-215 | When the compaction rule fires, in whole numbers of the counters |
| `Behaviour.CompactionByHistory` | pipeline/stage1c_dynamic_profiler.py:189-215 | After any run: when it fires, by the bursts and wake-ups of the thread since it is tracked |
| `Behaviour.SleeperIsCompactionByLastBurstOnly` | pipeline/stage1c_dynamic_profiler.py:112-128 | After any run: if a wake-up follows each completed burst of a thread but possibly its last, the bursts before wake-ups amount to at least the run time without the last burst, and the rule fires only if 7 last > 4 run + 7 sleep |
| `Behaviour.WokenSleeperIsNeverCompaction` | pipeline/stage1c_dynamic_profiler.py:112-128 | If a wake-up follows the last burst as well, the rule never fires |
| `Behaviour.SleeperCanBeCompaction` | pipeline/stage1c_dynamic_profiler.py:189-215 | A run in which a thread that ends each burst by sleeping is recognised as compaction |
| `Verify.NormalizeThreads` | pipeline/verify_manifest.py:42-53 | The two lookups have exactly the keys of their role, each mapped to the last entry of the role with that key |
| `Verify.CountLaws` | pipeline/verify_manifest.py:69-83 | tp + fn = size of gt_bg; tp + safety + extra = size of gen_bg plus the keys listed under both roles |
| `Verify.PrecisionAndRecall` | pipeline/verify_manifest.py:85-88 | precision (tp + safety + extra) = tp and recall (tp + fn) = tp, each 1 at a zero denominator |
| `Verify.ExtremePrecision` | pipeline/verify_manifest.py:85-87 | Precision is 1 if and only if every generated background key is background and not foreground in the truth, 0 if and only if there are some and none is background |
| `Verify.ExtremeRecall` | pipeline/verify_manifest.py:88 | Recall is 1 if and only if no true background key is missed, 0 if and only if there are some and all are |
| `Verify.F1Law` | pipeline/verify_manifest.py:85-89 | Precision, recall and F1 lie in [0, 1]; F1 (2tp + fp + fn) = 2tp; F1 = 1 when all counts are zero |
| `Verify.FindPartial` | pipeline/verify_manifest.py:164-171 | The inner loop finds a partial match exactly when there is one |
| `Verify.PartialMatchMeaning` | pipeline/verify_manifest.py:166-167 | A partial match, character by character: both prefixes present and the first three characters (or all, if fewer) found |
| `Verify.CheckDiscovery` | pipeline/verify_manifest.py:158-174 | The discovery loop's three counts, as sizes of sets of keys |
| `Verify.CheckSafety` | pipeline/verify_manifest.py:176-185 | The safety loop's counts |
| `Verify.CheckExtra` | pipeline/verify_manifest.py:187-196 | The extra-key loop's count |
| `Verify.CompareManifests` | pipeline/verify_manifest.py:102-218 | The three counters after all loops |
| `Verify.CountersAgreeWithMetrics` | pipeline/verify_manifest.py:150-199 | The loops' counters are the metrics: discovery passes tp, misses fn, safety failures the safety violations, extra warnings the extras plus violations the truth does not also list as background |
| `Verify.SafetyViolationFails` | pipeline/verify_manifest.py:271-279 | Any safety violation forces the FAIL verdict |
| `Verify.VerdictIff` | pipeline/verify_manifest.py:271-279 | Exactly when each of the three verdicts is given, on the manifests themselves: FAIL for disagreeing members, a true background entry missed with none that starts alike, or a true foreground entry generated as background; with warnings for a missing default role, a missed entry with one that starts alike, or an extra entry; PASS otherwise |
| `Verify.CleanHeaders` | pipeline/verify_manifest.py:109-148 | The header checks are clean if and only if application and method agree, the rationale has more than 20 characters, and a default role given by the truth is met |
| `Verify.PerfectF1` | pipeline/verify_manifest.py:69-89 | F1 = 1 if and only if the background keys are the same and none is foreground in the truth; recall = 1 if and only if none is missing |
| `Verify.SelfComparison` | pipeline/verify_manifest.py:56-99 | A manifest has recall 1 against itself, and F1 = 1 if and only if no key is listed under both roles |
| `Verify.CleanPassIffPerfect` | pipeline/verify_manifest.py:271-279 | The verdict is a clean PASS if and only if F1 = 1 and the manifests' own members agree |
| `CheckedSchedulers.PerfectRecallCoversBackground` | pipeline/verify_manifest.py:85-88 | Recall = 1: every name the truth's pattern A/B scheduler treats as background, the generated one does |
| `CheckedSchedulers.PerfectF1MeansSameScheduler` | pipeline/verify_manifest.py:85-89 | F1 = 1: the two pattern A/B schedulers classify every name alike and take the same steps on every schedule |
| `CheckedSchedulers.CleanPassMeansSameScheduler` | pipeline/verify_manifest.py:271-279 | A clean PASS: likewise |
| `CheckedSchedulers.SameClassifierIff` | pipeline/stage3_generate_scheduler.py:85-154 | Two manifests give classifiers that agree on every name if and only if each covers the background entries of the other that a name can match, and for pattern C the foreground entries too (a background entry may there be covered by a foreground one) |
| `CheckedSchedulers.SameSchedulerIff` | pipeline/stage3_generate_scheduler.py:159-599 | The same condition is equivalent to the generated schedulers taking the same steps on every schedule |
| `CheckedSchedulers.PerfectF1ForPatternC` | pipeline/verify_manifest.py:85-89 | F1 = 1: the two pattern C schedulers are equivalent if and only if the foreground entries cover each other |
| `CheckedSchedulers.ZeroF1CanMeanSameScheduler` | pipeline/verify_manifest.py:42-53 | Interchangeable manifests that differ only in the identification type score F1 = 0 and give the same scheduler |
| `CheckedSchedulers.ForegroundIsSafeIff` | pipeline/verify_manifest.py:57-65 | No name of a true foreground entry is background to the generated scheduler if and only if no true foreground and generated background prefixes of at most 15 bytes are comparable (for pattern C: unless a generated foreground entry catches the longer) |
| `CheckedSchedulers.ViolationsAreReal` | pipeline/verify_manifest.py:78-79 | A counted safety violation makes some true foreground name background to patterns A/B, when the true foreground prefixes have at most 15 bytes |
| `CheckedSchedulers.ZeroSafetyCanMisclassify` | pipeline/verify_manifest.py:78-79 | The converse fails: a generated background prefix that properly starts a true foreground name counts no violation and makes that name background |
| `CheckedSchedulers.BroadRedisPrefix` | pipeline/verify_manifest.py:78-79 | Such a pair: `redis` and `redis-server` |
| `Evaluate.EvaluateAll` | pipeline/evaluate_accuracy.py:59-111 | The accumulation loop and the aggregates; nothing exactly when no application was evaluated |
| `Evaluate.TotalsAreSums` | pipeline/evaluate_accuracy.py:83-87 | Each total is the sum of that count over the evaluated applications |
| `Evaluate.ViolationsIff` | pipeline/evaluate_accuracy.py:117-120 | A violation is reported if and only if some application has one |
| `Evaluate.AggregateBetweenApplications` | pipeline/evaluate_accuracy.py:107-111 | Aggregate precision and recall lie between the smallest and largest value of an application that has something to count |
| `Loader.ReadBtfEnum` | bpf_loader/loader.c:108-142 | Exactly what the name stands for in the type: all 64 bits of the first enumerator of that name in an enum64, the low 32 bits of it in an enum, nothing for a missing type, a missing name or another kind |
| `Loader.EnumValueDenotes` | bpf_loader/loader.c:121-141 | The lookup as a function has that meaning and no other |
| `Loader.EnumExamples` | bpf_loader/loader.c:69-69 | SCX_DSQ_GLOBAL keeps its top bit, and a negative SCX_TASK_CURSOR is 0x8000_0000 |
| `Loader.ZeroExtendKeepsValue` | bpf_loader/loader.c:126 | A 32-bit enumerator keeps its value exactly in the range of a u32 |
| `Loader.ResolveVariable` | bpf_loader/loader.c:246-269 | The row with the variable's name decides its value |
| `Loader.StoreWord` | bpf_loader/loader.c:258-260 | Eight little-endian bytes at the offset, every other byte as before |
| `Loader.ResolveScxEnums` | bpf_loader/loader.c:219-276 | The loop on a private copy and the write-back leave exactly the specified image; the count is exact |
| `Loader.OtherBytesUnchanged` | bpf_loader/loader.c:241-276 | A byte outside every patched slot is unchanged |
| `Loader.PatchedReadsBack` | bpf_loader/loader.c:250-269 | A patched variable reads back its value unless a later patched one overlaps it |
| `Loader.SlotHolds` | bpf_loader/loader.c:241-276 | After the loader every `__SCX_` variable whose first table row denotes a word, and whose slot lies within the section, reads back that word, unless the slot of a later variable overlaps its slot |
| `Loader.RestUnchanged` | bpf_loader/loader.c:241-276 | A byte that no such slot covers is unchanged |
| `Loader.SmallValueFirst` | bpf_loader/loader.c:260 | The lowest byte is stored first |
| `Loader.OverlapOverwrites` | bpf_loader/loader.c:259-260 | With the same offset the first of two is overwritten |
| `Loader.PatchCountIsNumberPatched` | bpf_loader/loader.c:259-261 | `set_count` is the number of patched variables |
| `Latency.PercentileBetweenNeighbours` | workloads/db_sim/db_sim.c:150-159 | The value lies between the two order statistics next to its position |
| `Latency.PercentileInRange` | workloads/db_sim/db_sim.c:150-159 | It lies between the first and the last sample |
| `Latency.PercentileMonotone` | workloads/db_sim/db_sim.c:150-159 | A higher percentile is never lower |
| `Latency.PercentileValue` | workloads/db_sim/db_sim.c:150-159 | The value: on the straight line between the samples around p (n - 1) / 100; the last sample from 100 on; 0 without samples |
| `Latency.PercentileAtWholePosition` | workloads/db_sim/db_sim.c:150-159 | At a whole position it is the order statistic |
| `Latency.MergeSamples` | workloads/db_sim/db_sim.c:214-224 | The summing and copying loops produce all samples of all threads in order |
| `Latency.FlattenAt` | workloads/db_sim/db_sim.c:219-224 | Sample j of thread i comes after all samples of the threads before it |
| `Latency.SummaryIsOrdered` | workloads/db_sim/db_sim.c:226-236 | After any sort: the reported minimum and maximum bound every thread's samples, and min <= p50 <= p99 <= max |
| `Latency.ExtremesAreSamples` | workloads/db_sim/db_sim.c:235-236 | The reported extremes were measured by some thread |

## Left out

- The BPF verifier, libbpf loading and attaching, BTF parsing, tracepoint attachment, signals: foreign calls. The loader works on tables and byte arrays.
- Failure of queue creation in `init`, the `exit` callbacks, and a sched_ext watchdog or bypass.
- Kernel behaviour beyond the stated assumptions: IPIs, the delivery of a kick, slice expiry as a timer, the choice made by `scx_bpf_select_cpu_dfl`. A preemption or expiry is a Stop event of the environment.
- Changes of affinity while a task is queued, dequeueing of a queued task, and task exit (which frees the cached class): the places where a task may run are fixed per machine.
- Steps of the kernel itself (putting a task on a CPU, taking it off) as methods of a class: they are functions of the machine only.
- Interleaving.DecisionInAnyInterleaving: covers one scanner and the accesses to the two per-CPU maps; interleaved queue operations and several concurrent scans are not modelled.
- Accounting.CountersMeasureHistory: counters are unbounded integers; the u64 range is not reached within centuries of CPU time. A full table is modelled as an insertion that fails.
- Generator.UsableManifests: speaks of the if-chain; the prefix and the name_pattern are also written into comments (`pipeline/stage3_generate_scheduler.py:97`), where a `*/` would end the comment early, and the comments are not modelled.
- Manifest members that only feed comments and messages (name_pattern, purpose, rationale beyond its length), file headers, scheduler names, the unknown-pattern error, and the printed reports.
- Manifests without an `application` or `identification_method` member, which the schema requires.
- Schema validation, command lines, JSON and file access, and the choice of the latest generated manifest.
- The order of the profiler's output: the entries are sorted there; the results hold for every order.
- The syscall counters of the profiler, which only count.
- Floating point: ratios, metrics, samples and percentiles are real numbers.
- `qsort`: the summary's properties hold for any sorted permutation. The average and the throughput sums are not modelled.
- `bpf_loader/example.bpf.c` and `bpf_loader/pid_filename_header.h`: another instance of the two-queue machine, and a thin hash-map wrapper.
- Stage 1a (source analysis), stage 2 (policy selection), stage 4 (result parsing), benchmark drivers and plots.
