/**
 The callbacks as the schedulers write them: maps updated in place, a scan that stops at
 the first kick, queues changed through the kernel. Each is proved equal to its function
 in Machine.dfy, so everything proved there is proved of them.
 */
module BpfOps {
  import opened Wrappers
  import opened Comm
  import opened Machine
  import opened Manifest
  import opened Generator
  import opened Schedulers

  /** The part of the kernel that the callbacks see and change. */
  class Kernel {
    var clock: Word
    var comm: map<Task, CommRead>
    var runnable: set<Task>
    var cpus: seq<CpuState>
    var dsqs: map<DsqId, seq<Task>>
    var log: seq<Effect>
    const may: (Task, Cpu) -> bool

    constructor (nrCpus: nat, may: (Task, Cpu) -> bool)
      ensures this.may == may && clock == 0 && comm == map[] && runnable == {} && log == []
      ensures cpus == seq(nrCpus, _ => CpuState(None, 0, [])) && dsqs == map[Global := []]
    {
      this.may := may;
      clock, comm, runnable, log := 0, map[], {}, [];
      cpus := seq(nrCpus, _ => CpuState(None, 0, []));
      dsqs := map[Global := []];
    }

    /** Everything but the scheduler's own maps. */
    function View(bgRunning: seq<nat>, bgStart: seq<Word>, cache: map<Task, Class>): State
      reads this
    {
      State(clock, comm, runnable, cpus, dsqs, bgRunning, bgStart, cache, log)
    }

    /** `bpf_probe_read_kernel_str` of the task's comm. */
    method ReadComm(t: Task) returns (read: CommRead)
      ensures read == if t in comm then comm[t] else Fault
    {
      read := if t in comm then comm[t] else Fault;
    }

    method CreateDsq(id: nat)
      requires Custom(id) !in dsqs
      modifies this`dsqs
      ensures dsqs == old(dsqs)[Custom(id) := []]
    {
      dsqs := dsqs[Custom(id) := []];
    }

    method DsqInsert(t: Task, dsq: DsqId, slice: nat)
      requires dsq in dsqs
      modifies this`dsqs, this`log
      ensures forall r, b, c :: View(r, b, c) == InsertAt(old(View(r, b, c)), t, dsq, slice)
    {
      dsqs := dsqs[dsq := dsqs[dsq] + [t]];
      log := log + [Insert(t, dsq, slice)];
    }

    method DsqInsertLocal(t: Task, cpu: Cpu, slice: nat)
      requires cpu < |cpus|
      modifies this`cpus, this`log
      ensures forall r, b, c :: View(r, b, c) == InsertOnCpu(old(View(r, b, c)), t, cpu, slice)
    {
      cpus := cpus[cpu := cpus[cpu].(local := cpus[cpu].local + [t])];
      log := log + [InsertLocal(t, cpu, slice)];
    }

    /** `scx_bpf_dsq_move_to_local`, called on behalf of the CPU. */
    method DsqMoveToLocal(ghost h: Host, dsq: DsqId, cpu: Cpu) returns (moved: bool)
      requires h.may == may && dsq in dsqs && cpu < |cpus|
      modifies this`cpus, this`dsqs, this`log
      ensures dsqs.Keys == old(dsqs.Keys) && |cpus| == old(|cpus|)
      ensures forall r, b, c :: moved == old(CanMove(h, View(r, b, c), dsq, cpu))
      ensures forall r, b, c ::
        View(r, b, c) == if moved then MoveToLocal(h, old(View(r, b, c)), dsq, cpu) else old(View(r, b, c))
    {
      var q, i := dsqs[dsq], 0;
      while i < |q| && !may(q[i], cpu)
        invariant i <= |q| && FirstFor(h, q, cpu) == FirstFor(h, q, cpu, i)
      {
        i := i + 1;
      }
      moved := i < |q|;
      if moved {
        dsqs := dsqs[dsq := q[..i] + q[i + 1..]];
        cpus := cpus[cpu := cpus[cpu].(local := cpus[cpu].local + [q[i]])];
        log := log + [Move(q[i], dsq, cpu)];
      }
    }

    method KickCpu(cpu: Cpu)
      modifies this`log
      ensures forall r, b, c :: View(r, b, c) == Emit(old(View(r, b, c)), Kick(cpu))
    {
      log := log + [Kick(cpu)];
    }
  }

  /** A classification function of type bool: background or not, and always defined. */
  ghost predicate BooleanTest(program: Program) {
    Executable(program.branches) && forall read :: ClassBy(program)(read) != Normal
  }

  /** The hand-written boolean tests and everything patterns A and B generate are of that kind. */
  lemma BooleanTests(threads: seq<Entry>, pattern: Pattern)
    ensures BooleanTest(IS_REDIS_BACKGROUND) && BooleanTest(IS_ROCKSDB_BACKGROUND) && BooleanTest(NOT_QUERY_TASK)
    ensures Usable(threads, pattern) && !pattern.AsymmetricTaskStorage? ==> BooleanTest(Generated(threads, pattern))
  {
    forall read: CommRead
      ensures ClassBy(IS_REDIS_BACKGROUND)(read) != Normal && ClassBy(IS_ROCKSDB_BACKGROUND)(read) != Normal
      ensures ClassBy(NOT_QUERY_TASK)(read) != Normal
      ensures Usable(threads, pattern) && !pattern.AsymmetricTaskStorage? ==>
                ClassBy(Generated(threads, pattern))(read) != Normal
    {
      if read.Read? {
        RedisMeaning(read.name);
        RocksdbMeaning(read.name);
        DbMeaning(read.name);
      }
      if Usable(threads, pattern) {
        GeneratedMeaning(threads, pattern, read);
      }
    }
  }

  /** redis_aware, rocksdb_aware and template B. */
  class SelectivePreemption {
    const kernel: Kernel
    const fgDsq: nat
    const bgDsq: nat
    const program: Program
    const nrCpus: nat
    const bgRunning: array<nat>
    const bgStart: array<Word>

    const DEFAULT_SLICE_NS: nat := 5_000_000
    const BACKGROUND_SLICE_NS: nat := 20_000_000

    ghost predicate Valid()
      reads this, kernel
    {
      && fgDsq != bgDsq && BooleanTest(program)
      && bgRunning.Length == bgStart.Length == MAX_CPUS && bgRunning as object != bgStart
      && kernel.dsqs.Keys == {Global, Custom(fgDsq), Custom(bgDsq)}
      && |kernel.cpus| == nrCpus
    }

    ghost function AsHost(): Host
      reads this, kernel
      requires Valid()
    {
      Host(Preemptive(fgDsq, bgDsq, ClassBy(program)), nrCpus, kernel.may)
    }

    ghost function Abs(): State
      reads this, kernel, bgRunning, bgStart
    {
      kernel.View(bgRunning[..], bgStart[..], map[])
    }

    /** `init`, on a kernel that has only its GLOBAL queue. */
    constructor (kernel: Kernel, fgDsq: nat, bgDsq: nat, program: Program, nrCpus: nat)
      requires fgDsq != bgDsq && BooleanTest(program) && kernel.dsqs == map[Global := []]
      requires |kernel.cpus| == nrCpus
      modifies kernel`dsqs
      ensures Valid() && this.kernel == kernel && this.program == program && fresh(bgRunning) && fresh(bgStart)
      ensures this.fgDsq == fgDsq && this.bgDsq == bgDsq && this.nrCpus == nrCpus
      ensures Abs() == old(kernel.View(seq(MAX_CPUS, _ => 0), seq(MAX_CPUS, _ => 0), map[]))
                         .(dsqs := Init(AsHost()).dsqs)
    {
      this.kernel, this.fgDsq, this.bgDsq, this.program, this.nrCpus := kernel, fgDsq, bgDsq, program, nrCpus;
      var flags := new nat[MAX_CPUS](_ => 0);
      var starts := new Word[MAX_CPUS](_ => 0);
      bgRunning, bgStart := flags, starts;
      new;
      kernel.CreateDsq(fgDsq);
      kernel.CreateDsq(bgDsq);
      assert bgRunning[..] == seq(MAX_CPUS, _ => 0);
      assert bgStart[..] == seq(MAX_CPUS, _ => 0);
    }

    method IsBackground(t: Task) returns (b: bool)
      requires Valid()
      ensures b == (ClassOf(AsHost(), Abs(), t) == Hog)
    {
      var read := kernel.ReadComm(t);
      b := ClassBy(program)(read) == Hog;
    }

    method SelectCpu(t: Task, cpu: Cpu, idle: bool) returns (chosen: Cpu)
      requires Valid() && cpu < nrCpus
      modifies kernel`cpus, kernel`log
      ensures Valid() && chosen == cpu
      ensures Abs() == Machine.SelectCpu(AsHost(), old(Abs()), t, cpu, idle, true)
    {
      chosen := cpu;
      var background := IsBackground(t);
      if idle {
        kernel.DsqInsertLocal(t, cpu, if background then BACKGROUND_SLICE_NS else DEFAULT_SLICE_NS);
        return;
      }
      if !background {
        KickOverdue();
      }
    }

    /** The scan of `select_cpu`. */
    method KickOverdue()
      requires Valid()
      modifies kernel`log
      ensures Valid() && Abs() == KickOne(AsHost(), old(Abs()))
    {
      ghost var s := Abs();
      var now := kernel.clock;
      var i := 0;
      while i < MAX_CPUS
        invariant i <= MAX_CPUS && Abs() == s
        invariant Scan(s, now, 0, MAX_CPUS) == Scan(s, now, i, MAX_CPUS)
      {
        if bgRunning[i] != 0 && Sub64(now, bgStart[i]) >= BG_MIN_RUN_NS {
          kernel.KickCpu(i);
          break;
        }
        i := i + 1;
      }
    }

    method Enqueue(t: Task)
      requires Valid()
      modifies kernel`dsqs, kernel`log
      ensures Valid() && Abs() == Machine.Enqueue(AsHost(), old(Abs()), t, true)
    {
      var background := IsBackground(t);
      if background {
        kernel.DsqInsert(t, Custom(bgDsq), BACKGROUND_SLICE_NS);
      } else {
        kernel.DsqInsert(t, Custom(fgDsq), DEFAULT_SLICE_NS);
      }
    }

    method Dispatch(cpu: Cpu)
      requires Valid() && cpu < nrCpus
      modifies kernel`cpus, kernel`dsqs, kernel`log
      ensures Valid() && Abs() == Machine.Dispatch(AsHost(), old(Abs()), cpu)
    {
      var moved := kernel.DsqMoveToLocal(AsHost(), Custom(fgDsq), cpu);
      if moved {
        return;
      }
      moved := kernel.DsqMoveToLocal(AsHost(), Custom(bgDsq), cpu);
    }

    method Running(t: Task, cpu: Cpu)
      requires Valid()
      modifies bgRunning, bgStart
      ensures Valid() && Abs() == Machine.Running(AsHost(), old(Abs()), t, cpu, true)
    {
      var background := IsBackground(t);
      if background && cpu < MAX_CPUS {
        var now := kernel.clock;
        bgRunning[cpu] := 1;
        bgStart[cpu] := now;
      }
    }

    method Stopping(t: Task, cpu: Cpu)
      requires Valid()
      modifies bgRunning
      ensures Valid() && Abs() == Machine.Stopping(AsHost(), old(Abs()), t, cpu, true)
    {
      var background := IsBackground(t);
      if background && cpu < MAX_CPUS {
        bgRunning[cpu] := 0;
      }
    }
  }

  /** db_aware and template A: no tracking, no preemption. */
  class SimpleDualDsq {
    const kernel: Kernel
    const fgDsq: nat
    const bgDsq: nat
    const fgSlice: nat
    const program: Program
    const nrCpus: nat

    const BACKGROUND_SLICE_NS: nat := 20_000_000

    ghost predicate Valid()
      reads this, kernel
    {
      && fgDsq != bgDsq && BooleanTest(program)
      && kernel.dsqs.Keys == {Global, Custom(fgDsq), Custom(bgDsq)}
      && |kernel.cpus| == nrCpus
    }

    ghost function AsHost(): Host
      reads this, kernel
      requires Valid()
    {
      Host(DualDsq(fgDsq, bgDsq, fgSlice, ClassBy(program)), nrCpus, kernel.may)
    }

    ghost function Abs(): State
      reads this, kernel
    {
      kernel.View(seq(MAX_CPUS, _ => 0), seq(MAX_CPUS, _ => 0), map[])
    }

    constructor (kernel: Kernel, fgDsq: nat, bgDsq: nat, fgSlice: nat, program: Program, nrCpus: nat)
      requires fgDsq != bgDsq && BooleanTest(program) && kernel.dsqs == map[Global := []]
      requires |kernel.cpus| == nrCpus
      modifies kernel`dsqs
      ensures Valid() && this.kernel == kernel && this.program == program && this.nrCpus == nrCpus
      ensures this.fgDsq == fgDsq && this.bgDsq == bgDsq && this.fgSlice == fgSlice
      ensures kernel.dsqs == Init(AsHost()).dsqs
    {
      this.kernel, this.fgDsq, this.bgDsq := kernel, fgDsq, bgDsq;
      this.fgSlice, this.program, this.nrCpus := fgSlice, program, nrCpus;
      new;
      kernel.CreateDsq(fgDsq);
      kernel.CreateDsq(bgDsq);
    }

    method IsBackground(t: Task) returns (b: bool)
      requires Valid()
      ensures b == (ClassOf(AsHost(), Abs(), t) == Hog)
    {
      var read := kernel.ReadComm(t);
      b := ClassBy(program)(read) == Hog;
    }

    method SelectCpu(t: Task, cpu: Cpu, idle: bool) returns (chosen: Cpu)
      requires Valid() && cpu < nrCpus
      modifies kernel`cpus, kernel`log
      ensures Valid() && chosen == cpu
      ensures Abs() == Machine.SelectCpu(AsHost(), old(Abs()), t, cpu, idle, true)
    {
      chosen := cpu;
      if idle {
        var background := IsBackground(t);
        kernel.DsqInsertLocal(t, cpu, if background then BACKGROUND_SLICE_NS else fgSlice);
      }
    }

    method Enqueue(t: Task)
      requires Valid()
      modifies kernel`dsqs, kernel`log
      ensures Valid() && Abs() == Machine.Enqueue(AsHost(), old(Abs()), t, true)
    {
      var background := IsBackground(t);
      if background {
        kernel.DsqInsert(t, Custom(bgDsq), BACKGROUND_SLICE_NS);
      } else {
        kernel.DsqInsert(t, Custom(fgDsq), fgSlice);
      }
    }

    method Dispatch(cpu: Cpu)
      requires Valid() && cpu < nrCpus
      modifies kernel`cpus, kernel`dsqs, kernel`log
      ensures Valid() && Abs() == Machine.Dispatch(AsHost(), old(Abs()), cpu)
    {
      var moved := kernel.DsqMoveToLocal(AsHost(), Custom(fgDsq), cpu);
      if !moved {
        moved := kernel.DsqMoveToLocal(AsHost(), Custom(bgDsq), cpu);
      }
    }
  }

  // ----- nginx_aware and template C

  const TASK_UNKNOWN: nat := 0
  const TASK_FOREGROUND: nat := 1
  const TASK_CPU_HOG: nat := 2
  const TASK_NORMAL: nat := 3

  function Number(class_: Class): nat {
    match class_
    case Kicker => TASK_FOREGROUND
    case Hog => TASK_CPU_HOG
    case Normal => TASK_NORMAL
  }

  function ClassOfNumber(n: nat): Class {
    if n == TASK_FOREGROUND then Kicker else if n == TASK_CPU_HOG then Hog else Normal
  }

  /** The classes that stored numbers stand for. */
  ghost function Classes(numbers: map<Task, nat>): map<Task, Class> {
    map t | t in numbers :: ClassOfNumber(numbers[t])
  }

  lemma StoredClass(numbers: map<Task, nat>, t: Task, n: nat)
    ensures Classes(numbers[t := n]) == Classes(numbers)[t := ClassOfNumber(n)]
    ensures t in numbers ==> Classes(numbers)[t := ClassOfNumber(numbers[t])] == Classes(numbers)
  {
  }

  class AsymmetricTaskStorage {
    const kernel: Kernel
    const bgDsq: nat
    const program: Program
    const nrCpus: nat
    const bgRunning: array<nat>
    const bgStart: array<Word>
    /** `task_class_map`: the class number in each task's storage. */
    var classMap: map<Task, nat>

    const DEFAULT_SLICE_NS: nat := 5_000_000
    const BACKGROUND_SLICE_NS: nat := 20_000_000

    ghost predicate Valid()
      reads this, kernel
    {
      && Executable(program.branches)
      && bgRunning.Length == bgStart.Length == MAX_CPUS && bgRunning as object != bgStart
      && kernel.dsqs.Keys == {Global, Custom(bgDsq)}
      && |kernel.cpus| == nrCpus
      && forall t <- classMap :: 1 <= classMap[t] <= 3
    }

    ghost function AsHost(): Host
      reads this, kernel
      requires Valid()
    {
      Host(Asymmetric(bgDsq, ClassBy(program)), nrCpus, kernel.may)
    }

    ghost function Abs(): State
      reads this, kernel, bgRunning, bgStart
    {
      kernel.View(bgRunning[..], bgStart[..], Classes(classMap))
    }

    constructor (kernel: Kernel, bgDsq: nat, program: Program, nrCpus: nat)
      requires Executable(program.branches) && kernel.dsqs == map[Global := []]
      requires |kernel.cpus| == nrCpus
      modifies kernel`dsqs
      ensures Valid() && this.kernel == kernel && this.program == program && fresh(bgRunning) && fresh(bgStart)
      ensures this.bgDsq == bgDsq && this.nrCpus == nrCpus
      ensures Abs() == old(kernel.View(seq(MAX_CPUS, _ => 0), seq(MAX_CPUS, _ => 0), map[]))
                         .(dsqs := Init(AsHost()).dsqs)
    {
      this.kernel, this.bgDsq, this.program, this.nrCpus := kernel, bgDsq, program, nrCpus;
      var flags := new nat[MAX_CPUS](_ => 0);
      var starts := new Word[MAX_CPUS](_ => 0);
      bgRunning, bgStart, classMap := flags, starts, map[];
      new;
      kernel.CreateDsq(bgDsq);
      assert bgRunning[..] == seq(MAX_CPUS, _ => 0);
      assert bgStart[..] == seq(MAX_CPUS, _ => 0);
    }

    /** `classify_task`: the stored class, or read the name, classify, and store if possible. */
    method ClassifyTask(t: Task, storage: bool) returns (class_: nat)
      requires Valid()
      modifies this`classMap
      ensures Valid() && class_ == Number(ClassOf(AsHost(), old(Abs()), t))
      ensures Abs() == Remember(AsHost(), old(Abs()), t, storage)
    {
      if t in classMap && classMap[t] != TASK_UNKNOWN {
        StoredClass(classMap, t, classMap[t]);
        return classMap[t];
      }
      var read := kernel.ReadComm(t);
      class_ := Number(ClassBy(program)(read));
      if storage {
        StoredClass(classMap, t, class_);
        classMap := classMap[t := class_];
      }
    }

    method SelectCpu(t: Task, cpu: Cpu, idle: bool, storage: bool) returns (chosen: Cpu)
      requires Valid() && cpu < nrCpus
      modifies this`classMap, kernel`cpus, kernel`log
      ensures Valid() && chosen == cpu
      ensures Abs() == Machine.SelectCpu(AsHost(), old(Abs()), t, cpu, idle, storage)
    {
      chosen := cpu;
      var class_ := ClassifyTask(t, storage);
      if idle {
        kernel.DsqInsertLocal(t, cpu, if class_ == TASK_CPU_HOG then BACKGROUND_SLICE_NS else DEFAULT_SLICE_NS);
        return;
      }
      if class_ == TASK_FOREGROUND {
        KickOverdue();
      }
    }

    /** The scan of `select_cpu`. */
    method KickOverdue()
      requires Valid()
      modifies kernel`log
      ensures Valid() && Abs() == KickOne(AsHost(), old(Abs()))
    {
      ghost var s := Abs();
      var now := kernel.clock;
      var limit := nrCpus;
      if limit > MAX_CPUS {
        limit := MAX_CPUS;
      }
      var i := 0;
      while i < limit
        invariant i <= limit && Abs() == s && Valid()
        invariant Scan(s, now, 0, limit) == Scan(s, now, i, limit)
      {
        if bgRunning[i] != 0 && Sub64(now, bgStart[i]) >= BG_MIN_RUN_NS {
          kernel.KickCpu(i);
          break;
        }
        i := i + 1;
      }
    }

    method Enqueue(t: Task, storage: bool)
      requires Valid()
      modifies this`classMap, kernel`dsqs, kernel`log
      ensures Valid() && Abs() == Machine.Enqueue(AsHost(), old(Abs()), t, storage)
    {
      var class_ := ClassifyTask(t, storage);
      if class_ == TASK_CPU_HOG {
        kernel.DsqInsert(t, Custom(bgDsq), BACKGROUND_SLICE_NS);
      } else {
        kernel.DsqInsert(t, Global, DEFAULT_SLICE_NS);
      }
    }

    method Dispatch(cpu: Cpu)
      requires Valid() && cpu < nrCpus
      modifies kernel`cpus, kernel`dsqs, kernel`log
      ensures Valid() && Abs() == Machine.Dispatch(AsHost(), old(Abs()), cpu)
    {
      var moved := kernel.DsqMoveToLocal(AsHost(), Custom(bgDsq), cpu);
    }

    method Running(t: Task, cpu: Cpu, storage: bool)
      requires Valid()
      modifies this`classMap, bgRunning, bgStart
      ensures Valid() && Abs() == Machine.Running(AsHost(), old(Abs()), t, cpu, storage)
    {
      var class_ := ClassifyTask(t, storage);
      if class_ == TASK_CPU_HOG && cpu < MAX_CPUS {
        var now := kernel.clock;
        bgRunning[cpu] := 1;
        bgStart[cpu] := now;
      }
    }

    method Stopping(t: Task, cpu: Cpu, storage: bool)
      requires Valid()
      modifies this`classMap, bgRunning
      ensures Valid() && Abs() == Machine.Stopping(AsHost(), old(Abs()), t, cpu, storage)
    {
      var class_ := ClassifyTask(t, storage);
      if class_ == TASK_CPU_HOG && cpu < MAX_CPUS {
        bgRunning[cpu] := 0;
      }
    }
  }
}
