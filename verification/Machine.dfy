/**
 The schedulers as one step system.

 The four hand-written schedulers and the three templates differ in a `Policy`: queue ids,
 slices, the classifier, whether the background CPUs are tracked and kicked, whether the
 class is cached per task, and how far the scan goes. The functions here are the callbacks
 on values; the classes in BpfOps.dfy are the callbacks as written, proved equal to them.

 Contract with the kernel. A callback is one atomic step. A wake-up is `select_cpu`
 followed by `enqueue`, and `enqueue` is skipped when `select_cpu` has inserted the task.
 A CPU whose local queue is empty is refilled from the GLOBAL queue, and only when that
 yields nothing by `dispatch`. `running` and `stopping` bracket every execution on one CPU;
 `stopping` comes before the `enqueue` of a task that stays runnable. Inserts go to the
 tail; a move takes the first queued task that may run on the CPU. An update of a map
 index of 256 or more has no effect. CPU choice, idleness, storage allocation, affinity,
 preemption, blocking and renaming belong to the environment and are the event's arguments.
 */
module Machine {
  import opened Wrappers
  import opened Comm

  type Task = nat
  type Cpu = nat

  const MAX_CPUS: nat := 256
  const BG_MIN_RUN_NS: nat := 2_000_000
  const U64: nat := 0x1_0000_0000_0000_0000

  /** The values of a u64. */
  type Word = n: nat | n < U64

  /** Queues other than the per-CPU local ones. */
  datatype DsqId = Global | Custom(id: nat)

  datatype Policy = Policy(
    fgDsq: DsqId,
    bgDsq: DsqId,
    fgSlice: nat,
    bgSlice: nat,
    preempts: bool,
    caches: bool,
    boundedScan: bool,
    classify: CommRead -> Class)

  /** A policy on a machine: its CPUs and where each task may run. */
  datatype Host = Host(policy: Policy, nrCpus: nat, may: (Task, Cpu) -> bool) {
    /** The two queues are different, and only the foreground one can be GLOBAL. */
    predicate Valid() {
      policy.bgDsq.Custom? && policy.fgDsq != policy.bgDsq
    }

    function ScanLimit(): nat {
      if policy.boundedScan && nrCpus < MAX_CPUS then nrCpus else MAX_CPUS
    }
  }

  datatype Effect =
    | InsertLocal(task: Task, cpu: Cpu, slice: nat)
    | Insert(task: Task, dsq: DsqId, slice: nat)
    | Move(task: Task, dsq: DsqId, cpu: Cpu)
    | Kick(cpu: Cpu)

  /** `since` is the clock at which `current` was switched in. */
  datatype CpuState = CpuState(current: Option<Task>, since: Word, local: seq<Task>)

  datatype State = State(
    clock: Word,
    comm: map<Task, CommRead>,
    runnable: set<Task>,
    cpus: seq<CpuState>,
    dsqs: map<DsqId, seq<Task>>,
    bgRunning: seq<nat>,
    bgStart: seq<Word>,
    cache: map<Task, Class>,
    log: seq<Effect>)

  /** Lengths, the queues that exist, and the range of the clock. */
  ghost predicate Shaped(h: Host, s: State) {
    && h.Valid()
    && |s.cpus| == h.nrCpus
    && s.dsqs.Keys == {Global, h.policy.fgDsq, h.policy.bgDsq}
    && (h.policy.fgDsq != Global ==> s.dsqs[Global] == [])
    && |s.bgRunning| == |s.bgStart| == MAX_CPUS
  }

  function Init(h: Host): (s: State)
    requires h.Valid()
    ensures Shaped(h, s)
  {
    State(0, map[], {},
          seq(h.nrCpus, _ => CpuState(None, 0, [])),
          map[Global := [], h.policy.fgDsq := [], h.policy.bgDsq := []],
          seq(MAX_CPUS, _ => 0), seq(MAX_CPUS, _ => 0), map[], [])
  }

  // ----- classification

  function CommOf(s: State, t: Task): CommRead {
    if t in s.comm then s.comm[t] else Fault
  }

  /** The class a callback would get for the task now. */
  function ClassOf(h: Host, s: State, t: Task): Class {
    if h.policy.caches && t in s.cache then s.cache[t] else h.policy.classify(CommOf(s, t))
  }

  /** Classifying a task caches the class when storage for it can be had. */
  function Remember(h: Host, s: State, t: Task, storage: bool): (r: State)
    ensures r == s.(cache := r.cache)
    ensures forall u :: ClassOf(h, r, u) == ClassOf(h, s, u)
  {
    if h.policy.caches && storage then s.(cache := s.cache[t := ClassOf(h, s, t)]) else s
  }

  // ----- queue operations of the kernel

  function Emit(s: State, e: Effect): State {
    s.(log := s.log + [e])
  }

  function InsertAt(s: State, t: Task, dsq: DsqId, slice: nat): State
    requires dsq in s.dsqs
  {
    Emit(s.(dsqs := s.dsqs[dsq := s.dsqs[dsq] + [t]]), Insert(t, dsq, slice))
  }

  function InsertOnCpu(s: State, t: Task, cpu: Cpu, slice: nat): State
    requires cpu < |s.cpus|
  {
    var c := s.cpus[cpu];
    Emit(s.(cpus := s.cpus[cpu := c.(local := c.local + [t])]), InsertLocal(t, cpu, slice))
  }

  /** The position of the first task in the queue that may run on the CPU, from `from` on. */
  function FirstFor(h: Host, q: seq<Task>, cpu: Cpu, from: nat := 0): (r: Option<nat>)
    requires from <= |q|
    ensures r.Some? ==> from <= r.value < |q| && h.may(q[r.value], cpu)
    ensures forall i :: from <= i < (if r.Some? then r.value else |q|) ==> !h.may(q[i], cpu)
    decreases |q| - from
  {
    if from == |q| then None
    else if h.may(q[from], cpu) then Some(from)
    else FirstFor(h, q, cpu, from + 1)
  }

  function Without(q: seq<Task>, i: nat): seq<Task>
    requires i < |q|
  {
    q[..i] + q[i + 1..]
  }

  predicate CanMove(h: Host, s: State, dsq: DsqId, cpu: Cpu)
    requires dsq in s.dsqs
  {
    FirstFor(h, s.dsqs[dsq], cpu).Some?
  }

  /** `scx_bpf_dsq_move_to_local` when it succeeds. */
  function MoveToLocal(h: Host, s: State, dsq: DsqId, cpu: Cpu): State
    requires dsq in s.dsqs && cpu < |s.cpus| && CanMove(h, s, dsq, cpu)
  {
    var q, c := s.dsqs[dsq], s.cpus[cpu];
    var i := FirstFor(h, q, cpu).value;
    Emit(s.(dsqs := s.dsqs[dsq := Without(q, i)],
            cpus := s.cpus[cpu := c.(local := c.local + [q[i]])]),
         Move(q[i], dsq, cpu))
  }

  // ----- the scheduler's callbacks

  /** Subtraction of two u64 values. */
  function Sub64(a: Word, b: Word): Word {
    if a >= b then a - b else a + U64 - b
  }

  predicate Kickable(s: State, now: Word, i: nat)
    requires i < |s.bgRunning| == |s.bgStart|
  {
    s.bgRunning[i] != 0 && Sub64(now, s.bgStart[i]) >= BG_MIN_RUN_NS
  }

  /** The first index in [from, limit) the scan would kick. */
  function Scan(s: State, now: Word, from: nat, limit: nat): (r: Option<nat>)
    requires from <= limit <= |s.bgRunning| == |s.bgStart|
    ensures r.Some? ==> from <= r.value < limit && Kickable(s, now, r.value)
    ensures forall i :: from <= i < (if r.Some? then r.value else limit) ==> !Kickable(s, now, i)
    decreases limit - from
  {
    if from == limit then None
    else if Kickable(s, now, from) then Some(from)
    else Scan(s, now, from + 1, limit)
  }

  /** The scan depends on the maps and the clock only. */
  lemma {:induction false} SameScan(s: State, r: State, from: nat, limit: nat)
    requires from <= limit <= |s.bgRunning| == |s.bgStart|
    requires r.bgRunning == s.bgRunning && r.bgStart == s.bgStart && r.clock == s.clock
    ensures Scan(r, r.clock, from, limit) == Scan(s, s.clock, from, limit)
    decreases limit - from
  {
    if from != limit {
      SameScan(s, r, from + 1, limit);
    }
  }

  function KickOne(h: Host, s: State): (r: State)
    requires |s.bgRunning| == |s.bgStart| == MAX_CPUS
    ensures r == s.(log := r.log)
  {
    match Scan(s, s.clock, 0, h.ScanLimit())
    case Some(i) => Emit(s, Kick(i))
    case None => s
  }

  function SliceFor(h: Host, class_: Class): nat {
    if class_ == Hog then h.policy.bgSlice else h.policy.fgSlice
  }

  /** `select_cpu`; it inserts the task exactly when the CPU was idle. */
  function SelectCpu(h: Host, s: State, t: Task, cpu: Cpu, idle: bool, storage: bool): (r: State)
    requires cpu < |s.cpus| && |s.bgRunning| == |s.bgStart| == MAX_CPUS
    ensures !idle ==> r == s.(cache := r.cache, log := r.log)
    ensures idle ==> r == InsertOnCpu(s.(cache := r.cache), t, cpu, SliceFor(h, ClassOf(h, s, t)))
  {
    var class_, s := ClassOf(h, s, t), Remember(h, s, t, storage);
    if idle then InsertOnCpu(s, t, cpu, SliceFor(h, class_))
    else if h.policy.preempts && class_ == Kicker then KickOne(h, s)
    else s
  }

  function DsqFor(h: Host, class_: Class): DsqId {
    if class_ == Hog then h.policy.bgDsq else h.policy.fgDsq
  }

  function Enqueue(h: Host, s: State, t: Task, storage: bool): State
    requires h.policy.fgDsq in s.dsqs && h.policy.bgDsq in s.dsqs
  {
    var class_ := ClassOf(h, s, t);
    InsertAt(Remember(h, s, t, storage), t, DsqFor(h, class_), SliceFor(h, class_))
  }

  /** `dispatch`: the foreground queue first, unless the kernel drains it by itself. */
  function Dispatch(h: Host, s: State, cpu: Cpu): State
    requires h.policy.fgDsq in s.dsqs && h.policy.bgDsq in s.dsqs && cpu < |s.cpus|
  {
    if h.policy.fgDsq != Global && CanMove(h, s, h.policy.fgDsq, cpu) then
      MoveToLocal(h, s, h.policy.fgDsq, cpu)
    else if CanMove(h, s, h.policy.bgDsq, cpu) then
      MoveToLocal(h, s, h.policy.bgDsq, cpu)
    else s
  }

  function Running(h: Host, s: State, t: Task, cpu: Cpu, storage: bool): (r: State)
    requires |s.bgRunning| == |s.bgStart| == MAX_CPUS
    ensures r == s.(cache := r.cache, bgRunning := r.bgRunning, bgStart := r.bgStart)
  {
    var class_, s := ClassOf(h, s, t), Remember(h, s, t, storage);
    if h.policy.preempts && class_ == Hog && cpu < MAX_CPUS then
      s.(bgRunning := s.bgRunning[cpu := 1], bgStart := s.bgStart[cpu := s.clock])
    else s
  }

  function Stopping(h: Host, s: State, t: Task, cpu: Cpu, storage: bool): (r: State)
    requires |s.bgRunning| == MAX_CPUS
    ensures r == s.(cache := r.cache, bgRunning := r.bgRunning)
  {
    var class_, s := ClassOf(h, s, t), Remember(h, s, t, storage);
    if h.policy.preempts && class_ == Hog && cpu < MAX_CPUS then
      s.(bgRunning := s.bgRunning[cpu := 0])
    else s
  }

  // ----- events

  /**
   `storage` and `storage2` say whether task storage could be allocated in the two
   callbacks of the event; schedulers that do not cache ignore them. Patterns without
   tracking have no `running` and `stopping` callbacks; for them both are the identity.
   */
  datatype Event =
    | Wake(task: Task, cpu: Cpu, idle: bool, storage: bool, storage2: bool)
    | Balance(cpu: Cpu)
    | Start(cpu: Cpu, storage: bool)
    | Stop(cpu: Cpu, runnable: bool, storage: bool, storage2: bool)
    | Rename(task: Task, comm: CommRead)
    | Tick(ns: nat)

  predicate Enabled(h: Host, s: State, e: Event) {
    match e
    case Wake(t, cpu, idle, _, _) =>
      t !in s.runnable && cpu < |s.cpus| && (idle ==> s.cpus[cpu].current.None? && h.may(t, cpu))
    case Balance(cpu) => cpu < |s.cpus| && s.cpus[cpu].local == []
    case Start(cpu, _) => cpu < |s.cpus| && s.cpus[cpu].current.None? && s.cpus[cpu].local != []
    case Stop(cpu, _, _, _) => cpu < |s.cpus| && s.cpus[cpu].current.Some?
    case Rename(_, _) => true
    case Tick(ns) => s.clock + ns < U64
  }

  /** The kernel puts the head of the local queue on the CPU and calls `running`. */
  function SwitchIn(h: Host, s: State, cpu: Cpu, storage: bool): State
    requires |s.bgRunning| == |s.bgStart| == MAX_CPUS
    requires cpu < |s.cpus| && s.cpus[cpu].local != []
  {
    var local := s.cpus[cpu].local;
    var next := CpuState(Some(local[0]), s.clock, local[1..]);
    Running(h, s.(cpus := s.cpus[cpu := next]), local[0], cpu, storage)
  }

  /** The kernel calls `stopping` and takes the task off the CPU. */
  function SwitchOut(h: Host, s: State, cpu: Cpu, storage: bool): State
    requires |s.bgRunning| == MAX_CPUS && cpu < |s.cpus| && s.cpus[cpu].current.Some?
  {
    var s := Stopping(h, s, s.cpus[cpu].current.value, cpu, storage);
    s.(cpus := s.cpus[cpu := s.cpus[cpu].(current := None)])
  }

  function Step(h: Host, s: State, e: Event): State
    requires Shaped(h, s) && Enabled(h, s, e)
  {
    match e
    case Wake(t, cpu, idle, storage, storage2) =>
      var s := SelectCpu(h, s.(runnable := s.runnable + {t}), t, cpu, idle, storage);
      if idle then s else Enqueue(h, s, t, storage2)
    case Balance(cpu) =>
      if CanMove(h, s, Global, cpu) then MoveToLocal(h, s, Global, cpu) else Dispatch(h, s, cpu)
    case Start(cpu, storage) =>
      SwitchIn(h, s, cpu, storage)
    case Stop(cpu, runnable, storage, storage2) =>
      var t, s := s.cpus[cpu].current.value, SwitchOut(h, s, cpu, storage);
      if runnable then Enqueue(h, s, t, storage2) else s.(runnable := s.runnable - {t})
    case Rename(t, comm) => s.(comm := s.comm[t := comm])
    case Tick(ns) => s.(clock := s.clock + ns)
  }

  // ----- every event keeps the shape

  lemma InsertShape(h: Host, s: State, t: Task, dsq: DsqId, slice: nat)
    requires Shaped(h, s) && dsq in s.dsqs && (h.policy.fgDsq != Global ==> dsq != Global)
    ensures Shaped(h, InsertAt(s, t, dsq, slice))
  {
    assert s.dsqs[dsq := s.dsqs[dsq] + [t]].Keys == s.dsqs.Keys;
  }

  lemma MoveShape(h: Host, s: State, dsq: DsqId, cpu: Cpu)
    requires Shaped(h, s) && dsq in s.dsqs && cpu < |s.cpus| && CanMove(h, s, dsq, cpu)
    ensures Shaped(h, MoveToLocal(h, s, dsq, cpu))
  {
    var q := Without(s.dsqs[dsq], FirstFor(h, s.dsqs[dsq], cpu).value);
    assert s.dsqs[dsq := q].Keys == s.dsqs.Keys;
  }

  lemma EnqueueShape(h: Host, s: State, t: Task, storage: bool)
    requires Shaped(h, s)
    ensures Shaped(h, Enqueue(h, s, t, storage))
  {
    var class_ := ClassOf(h, s, t);
    InsertShape(h, Remember(h, s, t, storage), t, DsqFor(h, class_), SliceFor(h, class_));
  }

  lemma StepShape(h: Host, s: State, e: Event)
    requires Shaped(h, s) && Enabled(h, s, e)
    ensures Shaped(h, Step(h, s, e))
  {
    match e
    case Wake(t, cpu, idle, storage, storage2) =>
      if !idle {
        EnqueueShape(h, SelectCpu(h, s.(runnable := s.runnable + {t}), t, cpu, idle, storage), t, storage2);
      }
    case Balance(cpu) =>
      if CanMove(h, s, Global, cpu) {
        MoveShape(h, s, Global, cpu);
      } else if CanMove(h, s, h.policy.fgDsq, cpu) {
        MoveShape(h, s, h.policy.fgDsq, cpu);
      } else if CanMove(h, s, h.policy.bgDsq, cpu) {
        MoveShape(h, s, h.policy.bgDsq, cpu);
      }
    case Stop(cpu, runnable, storage, storage2) =>
      EnqueueShape(h, SwitchOut(h, s, cpu, storage), s.cpus[cpu].current.value, storage2);
    case _ =>
  }

  // ----- runs

  ghost predicate Feasible(h: Host, s: State, es: seq<Event>)
    requires Shaped(h, s)
    decreases |es|
  {
    es == [] || (Enabled(h, s, es[0]) && (StepShape(h, s, es[0]); Feasible(h, Step(h, s, es[0]), es[1..])))
  }

  ghost function Run(h: Host, s: State, es: seq<Event>): (r: State)
    requires Shaped(h, s) && Feasible(h, s, es)
    ensures Shaped(h, r)
    decreases |es|
  {
    if es == [] then s else StepShape(h, s, es[0]); Run(h, Step(h, s, es[0]), es[1..])
  }
}
