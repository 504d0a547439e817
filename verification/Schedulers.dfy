/**
 The four hand-written schedulers, the three templates, and how they compare.
 */
module Schedulers {
  import opened Wrappers
  import opened Comm
  import opened CSource
  import opened Manifest
  import opened Generator
  import opened Machine
  import opened Simulation

  /** The result of a classification function; an undefined one gives nothing to rely on. */
  function ClassBy(program: Program): CommRead -> Class
    requires Executable(program.branches)
  {
    read => match Classify(program, read)
      case Some(c) => c
      case None => Normal
  }

  // ----- the hand-written classifiers, comparison by comparison

  const BIO := [Test(0, 'b'), Test(1, 'i'), Test(2, 'o'), Test(3, '_')]
  const REDIS_R :=
    [Test(0, 'r'), Test(1, 'e'), Test(2, 'd'), Test(3, 'i'), Test(4, 's'), Test(5, '-'), Test(6, 'r')]
  const REDIS_A :=
    [Test(0, 'r'), Test(1, 'e'), Test(2, 'd'), Test(3, 'i'), Test(4, 's'), Test(5, '-'), Test(6, 'a')]
  const JEMALLOC :=
    [Test(0, 'j'), Test(1, 'e'), Test(2, 'm'), Test(3, 'a'), Test(4, 'l'), Test(5, 'l'), Test(6, 'o'), Test(7, 'c')]
  const ROCKSDB :=
    [Test(0, 'r'), Test(1, 'o'), Test(2, 'c'), Test(3, 'k'), Test(4, 's'), Test(5, 'd'), Test(6, 'b'), Test(7, ':')]
  const NGINX := [Test(0, 'n'), Test(1, 'g'), Test(2, 'i'), Test(3, 'n'), Test(4, 'x')]
  const STRESS_NG :=
    [Test(0, 's'), Test(1, 't'), Test(2, 'r'), Test(3, 'e'), Test(4, 's'), Test(5, 's'), Test(6, '-'),
     Test(7, 'n'), Test(8, 'g')]
  const QUERY := [Test(0, 'q'), Test(1, 'u'), Test(2, 'e'), Test(3, 'r'), Test(4, 'y')]

  const IS_REDIS_BACKGROUND :=
    Program([Branch(BIO, Hog), Branch(REDIS_R, Hog), Branch(REDIS_A, Hog), Branch(JEMALLOC, Hog)], Kicker, Kicker)
  const IS_ROCKSDB_BACKGROUND := Program([Branch(ROCKSDB, Hog)], Kicker, Kicker)
  const CLASSIFY_NGINX := Program([Branch(NGINX, Kicker), Branch(STRESS_NG, Hog)], Normal, Normal)
  /** `is_query_task`: everything that is not a query task goes to the low queue. */
  const NOT_QUERY_TASK := Program([Branch(QUERY, Kicker)], Hog, Hog)

  // ----- policies

  function DualDsq(fg: nat, bg: nat, fgSlice: nat, classify: CommRead -> Class): Policy {
    Policy(Custom(fg), Custom(bg), fgSlice, 20_000_000, false, false, false, classify)
  }

  function Preemptive(fg: nat, bg: nat, classify: CommRead -> Class): Policy {
    Policy(Custom(fg), Custom(bg), 5_000_000, 20_000_000, true, false, false, classify)
  }

  function Asymmetric(bg: nat, classify: CommRead -> Class): Policy {
    Policy(Global, Custom(bg), 5_000_000, 20_000_000, true, true, true, classify)
  }

  function DbAware(): Policy {
    DualDsq(0, 1, 3_000_000, ClassBy(NOT_QUERY_TASK))
  }

  function RedisAware(): Policy {
    Preemptive(0x200, 0x201, ClassBy(IS_REDIS_BACKGROUND))
  }

  function RocksdbAware(): Policy {
    Preemptive(0x100, 0x101, ClassBy(IS_ROCKSDB_BACKGROUND))
  }

  function NginxAware(): Policy {
    Asymmetric(0x201, ClassBy(CLASSIFY_NGINX))
  }

  /** The scheduler generated from a manifest with a template. */
  function FromTemplate(threads: seq<Entry>, pattern: Pattern): Policy
    requires Usable(threads, pattern)
  {
    var classify := ClassBy(Generated(threads, pattern));
    match pattern
    case SimpleDualDsq => DualDsq(0x100, 0x101, 3_000_000, classify)
    case SelectivePreemption => Preemptive(0x200, 0x201, classify)
    case AsymmetricTaskStorage => Asymmetric(0x201, classify)
  }

  // ----- the example manifests

  function Named(role: Role, idType: string, prefix: string, length: int): Entry {
    Entry(role, idType, Value(prefix), Value(length))
  }

  const REDIS_THREADS := [
    Named(Background, "comm_prefix", "bio_", 4),
    Named(Background, "comm_prefix", "bio_", 4),
    Named(Background, "comm_prefix", "bio_", 4),
    Named(Background, "comm_prefix", "redis-r", 7),
    Named(Background, "comm_prefix", "redis-a", 7),
    Named(Background, "comm_prefix", "jemalloc", 8),
    Named(Foreground, "comm_exact", "redis-server", 12),
    Named(Foreground, "comm_prefix", "io_thd_", 7)
  ]

  const ROCKSDB_THREADS := [
    Named(Background, "comm_prefix", "rocksdb:", 8),
    Named(Background, "comm_prefix", "rocksdb:", 8)
  ]

  const NGINX_THREADS := [
    Named(Foreground, "comm_exact", "nginx", 5),
    Named(Background, "comm_prefix", "stress-ng", 9)
  ]

  // ----- what the hand-written classifiers compute

  lemma HandWrittenTests()
    ensures BIO == PrefixTests("bio_") && REDIS_R == PrefixTests("redis-r") && REDIS_A == PrefixTests("redis-a")
    ensures JEMALLOC == PrefixTests("jemalloc") && ROCKSDB == PrefixTests("rocksdb:")
    ensures NGINX == PrefixTests("nginx") && STRESS_NG == PrefixTests("stress-ng") && QUERY == PrefixTests("query")
  {
  }

  lemma RedisMeaning(name: Name)
    ensures Classify(IS_REDIS_BACKGROUND, Read(name))
         == Some(if "bio_" <= name || "redis-r" <= name || "redis-a" <= name || "jemalloc" <= name
                 then Hog else Kicker)
    ensures Classify(IS_REDIS_BACKGROUND, Fault) == Some(Kicker)
  {
    HandWrittenTests();
    var b3 := [Branch(JEMALLOC, Hog)];
    var b2 := [Branch(REDIS_A, Hog)] + b3;
    var b1 := [Branch(REDIS_R, Hog)] + b2;
    BranchMeaning("jemalloc", Hog, [], Kicker, name);
    assert [Branch(PrefixTests("jemalloc"), Hog)] + [] == b3;
    BranchMeaning("redis-a", Hog, b3, Kicker, name);
    BranchMeaning("redis-r", Hog, b2, Kicker, name);
    BranchMeaning("bio_", Hog, b1, Kicker, name);
    assert IS_REDIS_BACKGROUND.branches == [Branch(BIO, Hog)] + b1;
  }

  lemma RocksdbMeaning(name: Name)
    ensures Classify(IS_ROCKSDB_BACKGROUND, Read(name)) == Some(if "rocksdb:" <= name then Hog else Kicker)
    ensures Classify(IS_ROCKSDB_BACKGROUND, Fault) == Some(Kicker)
  {
    HandWrittenTests();
    BranchMeaning("rocksdb:", Hog, [], Kicker, name);
    assert IS_ROCKSDB_BACKGROUND.branches == [Branch(PrefixTests("rocksdb:"), Hog)] + [];
  }

  lemma NginxMeaning(name: Name)
    ensures Classify(CLASSIFY_NGINX, Read(name))
         == Some(if "nginx" <= name then Kicker else if "stress-ng" <= name then Hog else Normal)
    ensures Classify(CLASSIFY_NGINX, Fault) == Some(Normal)
  {
    HandWrittenTests();
    var b1 := [Branch(STRESS_NG, Hog)];
    BranchMeaning("stress-ng", Hog, [], Normal, name);
    assert [Branch(PrefixTests("stress-ng"), Hog)] + [] == b1;
    BranchMeaning("nginx", Kicker, b1, Normal, name);
    assert CLASSIFY_NGINX.branches == [Branch(NGINX, Kicker)] + b1;
  }

  lemma DbMeaning(name: Name)
    ensures Classify(NOT_QUERY_TASK, Read(name)) == Some(if "query" <= name then Kicker else Hog)
    ensures Classify(NOT_QUERY_TASK, Fault) == Some(Hog)
  {
    HandWrittenTests();
    BranchMeaning("query", Kicker, [], Hog, name);
    assert NOT_QUERY_TASK.branches == [Branch(PrefixTests("query"), Kicker)] + [];
  }

  // ----- what the example manifests ask for

  lemma NamedTruncation(role: Role, idType: string, prefix: string)
    requires prefix != "" && AllPlain(prefix)
    ensures var e := Named(role, idType, prefix, |prefix|);
            Truncated(e) == prefix && GoodPattern(Truncated(e)) && !e.prefix.Null?
  {
  }

  /** The whole prefix is compared, and there is something to compare. */
  predicate ComparesAll(t: Entry) {
    t.prefix.Value? && t.prefix.value != "" && AllPlain(t.prefix.value) && t.length == Value(|t.prefix.value|)
  }

  lemma CleanManifestsAreUsable(threads: seq<Entry>, pattern: Pattern)
    requires forall t <- threads :: ComparesAll(t)
    ensures Usable(threads, pattern)
  {
    UsableManifests(threads, pattern);
    assert forall i :: 0 <= i < |threads| ==> ComparesAll(threads[i]);
  }

  lemma PlainPrefixes()
    ensures AllPlain("bio_") && AllPlain("redis-r") && AllPlain("redis-a") && AllPlain("jemalloc")
    ensures AllPlain("redis-server") && AllPlain("io_thd_") && AllPlain("rocksdb:")
    ensures AllPlain("nginx") && AllPlain("stress-ng") && AllPlain("redis")
  {
  }

  lemma RedisManifestUsable()
    ensures Usable(REDIS_THREADS, SelectivePreemption)
  {
    PlainPrefixes();
    assert forall t <- REDIS_THREADS :: ComparesAll(t);
    CleanManifestsAreUsable(REDIS_THREADS, SelectivePreemption);
  }

  lemma RedisManifestMatches(name: string)
    ensures Matches(REDIS_THREADS, Background, name)
       <==> "bio_" <= name || "redis-r" <= name || "redis-a" <= name || "jemalloc" <= name
  {
    NamedTruncation(Background, "comm_prefix", "bio_");
    NamedTruncation(Background, "comm_prefix", "redis-r");
    NamedTruncation(Background, "comm_prefix", "redis-a");
    NamedTruncation(Background, "comm_prefix", "jemalloc");
    assert Truncated(REDIS_THREADS[0]) == "bio_" && Truncated(REDIS_THREADS[3]) == "redis-r"
        && Truncated(REDIS_THREADS[4]) == "redis-a" && Truncated(REDIS_THREADS[5]) == "jemalloc";
  }

  lemma RocksdbManifestUsable()
    ensures Usable(ROCKSDB_THREADS, SelectivePreemption)
  {
    PlainPrefixes();
    assert forall t <- ROCKSDB_THREADS :: ComparesAll(t);
    CleanManifestsAreUsable(ROCKSDB_THREADS, SelectivePreemption);
  }

  lemma RocksdbManifestMatches(name: string)
    ensures Matches(ROCKSDB_THREADS, Background, name) <==> "rocksdb:" <= name
  {
    NamedTruncation(Background, "comm_prefix", "rocksdb:");
    assert Truncated(ROCKSDB_THREADS[0]) == "rocksdb:";
  }

  lemma NginxManifestUsable()
    ensures Usable(NGINX_THREADS, AsymmetricTaskStorage)
  {
    PlainPrefixes();
    assert forall t <- NGINX_THREADS :: ComparesAll(t);
    CleanManifestsAreUsable(NGINX_THREADS, AsymmetricTaskStorage);
  }

  lemma NginxManifestMatches(name: string)
    ensures Matches(NGINX_THREADS, Foreground, name) <==> "nginx" <= name
    ensures Matches(NGINX_THREADS, Background, name) <==> "stress-ng" <= name
  {
    NamedTruncation(Foreground, "comm_exact", "nginx");
    NamedTruncation(Background, "comm_prefix", "stress-ng");
    assert Truncated(NGINX_THREADS[0]) == "nginx" && Truncated(NGINX_THREADS[1]) == "stress-ng";
  }

  // ----- generated against hand-written, over every run

  /**
   Pattern B with the redis manifest is `redis_aware`: on every machine the same schedules
   are possible, and they lead to the same state, the same inserts, slices, moves and kicks.
   */
  lemma GeneratedRedisIsRedisAware(nrCpus: nat, may: (Task, Cpu) -> bool, es: seq<Event>)
    ensures Usable(REDIS_THREADS, SelectivePreemption)
    ensures var g := Host(FromTemplate(REDIS_THREADS, SelectivePreemption), nrCpus, may);
            var h := Host(RedisAware(), nrCpus, may);
            TraceEquivalent(g, h)
            && (Feasible(g, Init(g), es) ==> Run(g, Init(g), es) == Run(h, Init(h), es))
  {
    RedisManifestUsable();
    var g := Host(FromTemplate(REDIS_THREADS, SelectivePreemption), nrCpus, may);
    var h := Host(RedisAware(), nrCpus, may);
    forall read
      ensures g.policy.classify(read) == h.policy.classify(read)
    {
      GeneratedMeaning(REDIS_THREADS, SelectivePreemption, read);
      if read.Read? {
        RedisManifestMatches(read.name);
        RedisMeaning(read.name);
      }
    }
    SameHostsAreTraceEquivalent(g, h);
    if Feasible(g, Init(g), es) {
      SameNumbersSameStates(g, h, Run(g, Init(g), es), Run(h, Init(h), es));
    }
  }

  /** Pattern B with the rocksdb manifest is `rocksdb_aware` up to the numbers of the queues. */
  lemma GeneratedRocksdbIsRocksdbAware(nrCpus: nat, may: (Task, Cpu) -> bool)
    ensures Usable(ROCKSDB_THREADS, SelectivePreemption)
    ensures TraceEquivalent(Host(FromTemplate(ROCKSDB_THREADS, SelectivePreemption), nrCpus, may),
                            Host(RocksdbAware(), nrCpus, may))
  {
    RocksdbManifestUsable();
    var g := Host(FromTemplate(ROCKSDB_THREADS, SelectivePreemption), nrCpus, may);
    var h := Host(RocksdbAware(), nrCpus, may);
    forall read
      ensures g.policy.classify(read) == h.policy.classify(read)
    {
      GeneratedMeaning(ROCKSDB_THREADS, SelectivePreemption, read);
      if read.Read? {
        RocksdbManifestMatches(read.name);
        RocksdbMeaning(read.name);
      }
    }
    SameHostsAreTraceEquivalent(g, h);
  }

  /** Pattern C with the nginx manifest is `nginx_aware`. */
  lemma GeneratedNginxIsNginxAware(nrCpus: nat, may: (Task, Cpu) -> bool, es: seq<Event>)
    ensures Usable(NGINX_THREADS, AsymmetricTaskStorage)
    ensures var g := Host(FromTemplate(NGINX_THREADS, AsymmetricTaskStorage), nrCpus, may);
            var h := Host(NginxAware(), nrCpus, may);
            TraceEquivalent(g, h)
            && (Feasible(g, Init(g), es) ==> Run(g, Init(g), es) == Run(h, Init(h), es))
  {
    NginxManifestUsable();
    var g := Host(FromTemplate(NGINX_THREADS, AsymmetricTaskStorage), nrCpus, may);
    var h := Host(NginxAware(), nrCpus, may);
    forall read
      ensures g.policy.classify(read) == h.policy.classify(read)
    {
      GeneratedMeaning(NGINX_THREADS, AsymmetricTaskStorage, read);
      if read.Read? {
        NginxManifestMatches(read.name);
        NginxMeaning(read.name);
      }
    }
    SameHostsAreTraceEquivalent(g, h);
    if Feasible(g, Init(g), es) {
      SameNumbersSameStates(g, h, Run(g, Init(g), es), Run(h, Init(h), es));
    }
  }

  // ----- pattern A and db_aware

  /**
   Whatever the manifest, pattern A and `db_aware` treat one of the names "q" and "query"
   differently: a manifest entry that catches "q" also catches "query".
   */
  lemma PatternAMisclassifies(threads: seq<Entry>) returns (name: Name)
    requires Usable(threads, SimpleDualDsq)
    ensures name == "q" || name == "query"
    ensures (Intended(threads, SimpleDualDsq, Read(name)) == Hog) != (ClassBy(NOT_QUERY_TASK)(Read(name)) == Hog)
  {
    UsableManifests(threads, SimpleDualDsq);
    DbMeaning("q");
    DbMeaning("query");
    if Matches(threads, Background, "q") {
      var i :| 0 <= i < |threads| && threads[i].role == Background && Truncated(threads[i]) <= "q";
      assert GoodPattern(Truncated(threads[i]));
      assert Truncated(threads[i]) == "q" <= "query";
      assert Matches(threads, Background, "query");
      name := "query";
    } else {
      name := "q";
    }
  }

  /** After a rename, a wake-up without an idle CPU queues the task by its class, and may cache it. */
  lemma WokenShowsClass(h: Host, comm: CommRead) returns (es: seq<Event>)
    requires h.Valid() && h.nrCpus > 0
    ensures es == [Rename(0, comm), Wake(0, 0, false, true, true)] && Feasible(h, Init(h), es)
    ensures (0 in Run(h, Init(h), es).dsqs[h.policy.bgDsq]) <==> h.policy.classify(comm) == Hog
    ensures h.policy.caches ==> Run(h, Init(h), es).cache == map[0 := h.policy.classify(comm)]
  {
    var e0, e1 := Rename(0, comm), Wake(0, 0, false, true, true);
    es := [e0, e1];
    StepShape(h, Init(h), e0);
    var s1 := Step(h, Init(h), e0);
    StepShape(h, s1, e1);
    var s2 := Step(h, s1, e1);
    assert es[1..] == [e1] && [e1][1..] == [];
    assert Feasible(h, s2, []) && Feasible(h, s1, [e1]);
    assert Run(h, Init(h), es) == Run(h, s1, [e1]) == Run(h, s2, []) == s2;
    assert ClassOf(h, s1, 0) == h.policy.classify(comm);
    WakeShowsClass(h, s1, 0);
  }

  lemma WakeShowsClass(h: Host, s: State, t: Task)
    requires Shaped(h, s) && h.nrCpus > 0 && t !in s.runnable && t !in s.dsqs[h.policy.bgDsq] && t !in s.cache
    ensures var r := Step(h, s, Wake(t, 0, false, true, true));
            Shaped(h, r)
            && (t in r.dsqs[h.policy.bgDsq] <==> ClassOf(h, s, t) == Hog)
            && (h.policy.caches ==> r.cache == s.cache[t := ClassOf(h, s, t)])
  {
    StepShape(h, s, Wake(t, 0, false, true, true));
    var s0 := s.(runnable := s.runnable + {t});
    var s1 := SelectCpu(h, s0, t, 0, false, true);
    assert ClassOf(h, s0, t) == ClassOf(h, s, t);
    assert s1.cache == Remember(h, s0, t, true).cache;
  }

  /** Equivalent schedulers agree about background, and about every class if they cache it. */
  lemma EquivalentHostsClassifyAlike(h: Host, k: Host, read: CommRead)
    requires TraceEquivalent(h, k) && h.nrCpus > 0 && k.nrCpus > 0
    ensures h.policy.classify(read) == Hog <==> k.policy.classify(read) == Hog
    ensures h.policy.caches && k.policy.caches ==> h.policy.classify(read) == k.policy.classify(read)
  {
    var es := WokenShowsClass(h, read);
    var fs := WokenShowsClass(k, read);
    assert Corresponds(h, k, Run(h, Init(h), es), Run(k, Init(k), es));
    assert h.policy.caches && k.policy.caches ==> 0 in Run(h, Init(h), es).cache;
  }

  /** So no manifest makes pattern A behave as `db_aware`, the scheduler it derives from. */
  lemma NoManifestGivesDbAware(threads: seq<Entry>, nrCpus: nat, may: (Task, Cpu) -> bool)
    requires Usable(threads, SimpleDualDsq) && nrCpus > 0
    ensures !TraceEquivalent(Host(FromTemplate(threads, SimpleDualDsq), nrCpus, may),
                             Host(DbAware(), nrCpus, may))
  {
    var g, h := Host(FromTemplate(threads, SimpleDualDsq), nrCpus, may), Host(DbAware(), nrCpus, may);
    var name := PatternAMisclassifies(threads);
    GeneratedMeaning(threads, SimpleDualDsq, Read(name));
    if TraceEquivalent(g, h) {
      EquivalentHostsClassifyAlike(g, h, Read(name));
    }
  }
}
