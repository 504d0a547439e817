/**
 What the checker's numbers imply about the generated schedulers.
 */
module CheckedSchedulers {
  import opened Wrappers
  import opened Comm
  import opened Manifest
  import opened Generator
  import opened Verify
  import opened Machine
  import opened Simulation
  import opened Schedulers

  /** Entries with the same key compare the same bytes, when there is anything to compare. */
  lemma KeyDeterminesBytes(a: Entry, b: Entry)
    requires KeyFor(a) == KeyFor(b)
    requires !a.prefix.Null? && !b.prefix.Null? && Truncated(a) != "" && Truncated(b) != ""
    ensures Truncated(a) == Truncated(b)
  {
    assert a.prefix.Value? && b.prefix.Value?;
  }

  lemma ContainedKeysContainedMatches(a: seq<Entry>, b: seq<Entry>, name: string)
    requires Keys(a, Background) <= Keys(b, Background)
    requires WellFormed(a, Background) && WellFormed(b, Background)
    ensures Matches(a, Background, name) ==> Matches(b, Background, name)
  {
    if Matches(a, Background, name) {
      var i :| 0 <= i < |a| && a[i].role == Background && Truncated(a[i]) <= name;
      assert KeyFor(a[i]) in Keys(a, Background);
      assert KeyFor(a[i]) in Keys(b, Background);
      var e :| e in b && e.role == Background && KeyFor(e) == KeyFor(a[i]);
      var j :| 0 <= j < |b| && b[j] == e;
      assert GoodPattern(Truncated(a[i])) && GoodPattern(Truncated(b[j]));
      KeyDeterminesBytes(a[i], b[j]);
    }
  }

  /** Recall 1: whatever the true manifest's scheduler treats as background, the generated one does. */
  lemma PerfectRecallCoversBackground(generated: seq<Entry>, truth: seq<Entry>, pattern: Pattern, name: Name)
    requires Usable(generated, pattern) && Usable(truth, pattern) && !pattern.AsymmetricTaskStorage?
    requires ComputeMetrics(generated, truth).recall == 1.0
    ensures Classify(Generated(truth, pattern), Read(name)) == Some(Hog) ==>
            Classify(Generated(generated, pattern), Read(name)) == Some(Hog)
  {
    PerfectF1(Keys(generated, Background), Keys(truth, Background), Keys(truth, Foreground));
    UsableManifests(generated, pattern);
    UsableManifests(truth, pattern);
    GeneratedMeaning(generated, pattern, Read(name));
    GeneratedMeaning(truth, pattern, Read(name));
    ContainedKeysContainedMatches(truth, generated, name);
  }

  // ----- when two manifests give the same scheduler

  /** Every name that starts with the text is of that role to the pattern, or of a role that wins. */
  predicate Caught(threads: seq<Entry>, role: Role, pattern: Pattern, text: string) {
    Matches(threads, role, text)
    || (pattern.AsymmetricTaskStorage? && role == Background && Matches(threads, Foreground, text))
  }

  /** `b` catches what the entries of `a` compare, as far as a name can match them. */
  predicate Covers(b: seq<Entry>, a: seq<Entry>, role: Role, pattern: Pattern) {
    forall i :: 0 <= i < |a| && a[i].role == role && |Truncated(a[i])| < COMM_LEN ==>
      Caught(b, role, pattern, Truncated(a[i]))
  }

  /** The manifests cover each other's background, and for pattern C foreground, entries. */
  predicate Interchangeable(a: seq<Entry>, b: seq<Entry>, pattern: Pattern) {
    && Covers(b, a, Background, pattern) && Covers(a, b, Background, pattern)
    && (pattern.AsymmetricTaskStorage? ==>
          Covers(b, a, Foreground, pattern) && Covers(a, b, Foreground, pattern))
  }

  lemma MatchExtends(threads: seq<Entry>, role: Role, text: string, name: string)
    requires Matches(threads, role, text) && text <= name
    ensures Matches(threads, role, name)
  {
    var i :| 0 <= i < |threads| && threads[i].role == role && Truncated(threads[i]) <= text;
    assert Truncated(threads[i]) <= name;
  }

  lemma CoveredMatches(a: seq<Entry>, b: seq<Entry>, role: Role, pattern: Pattern, name: Name)
    requires Covers(b, a, role, pattern) && Matches(a, role, name)
    ensures Caught(b, role, pattern, name)
  {
    var i :| 0 <= i < |a| && a[i].role == role && Truncated(a[i]) <= name;
    var text := Truncated(a[i]);
    if Matches(b, role, text) {
      MatchExtends(b, role, text, name);
    } else {
      MatchExtends(b, Foreground, text, name);
    }
  }

  lemma InterchangeableAgree(a: seq<Entry>, b: seq<Entry>, pattern: Pattern, name: Name)
    requires Interchangeable(a, b, pattern)
    ensures Intended(a, pattern, Read(name)) == Intended(b, pattern, Read(name))
  {
    forall role | Matches(a, role, name) && (role == Background || pattern.AsymmetricTaskStorage?)
      ensures Caught(b, role, pattern, name)
    {
      CoveredMatches(a, b, role, pattern, name);
    }
    forall role | Matches(b, role, name) && (role == Background || pattern.AsymmetricTaskStorage?)
      ensures Caught(a, role, pattern, name)
    {
      CoveredMatches(b, a, role, pattern, name);
    }
  }

  lemma AgreementCovers(a: seq<Entry>, b: seq<Entry>, role: Role, pattern: Pattern)
    requires WellFormed(a, role) && (role == Background || pattern.AsymmetricTaskStorage?)
    requires forall name: Name :: Intended(a, pattern, Read(name)) == Intended(b, pattern, Read(name))
    ensures Covers(b, a, role, pattern)
  {
    forall i | 0 <= i < |a| && a[i].role == role && |Truncated(a[i])| < COMM_LEN
      ensures Caught(b, role, pattern, Truncated(a[i]))
    {
      var text := Truncated(a[i]);
      assert GoodPattern(text);
      assert IsName(text);
      assert Matches(a, role, text);
      assert Intended(a, pattern, Read(text)) == Intended(b, pattern, Read(text));
    }
  }

  ghost predicate SameClassifier(a: seq<Entry>, b: seq<Entry>, pattern: Pattern)
    requires Usable(a, pattern) && Usable(b, pattern)
  {
    forall read :: Classify(Generated(a, pattern), read) == Classify(Generated(b, pattern), read)
  }

  lemma InterchangeableSameClassifier(a: seq<Entry>, b: seq<Entry>, pattern: Pattern)
    requires Usable(a, pattern) && Usable(b, pattern) && Interchangeable(a, b, pattern)
    ensures SameClassifier(a, b, pattern)
  {
    forall read
      ensures Classify(Generated(a, pattern), read) == Classify(Generated(b, pattern), read)
    {
      GeneratedMeaning(a, pattern, read);
      GeneratedMeaning(b, pattern, read);
      if read.Read? {
        InterchangeableAgree(a, b, pattern, read.name);
      }
    }
  }

  lemma SameClassifierCovers(a: seq<Entry>, b: seq<Entry>, pattern: Pattern)
    requires Usable(a, pattern) && Usable(b, pattern) && SameClassifier(a, b, pattern)
    ensures Interchangeable(a, b, pattern)
  {
    UsableManifests(a, pattern);
    UsableManifests(b, pattern);
    forall name: Name
      ensures Intended(a, pattern, Read(name)) == Intended(b, pattern, Read(name))
    {
      GeneratedMeaning(a, pattern, Read(name));
      GeneratedMeaning(b, pattern, Read(name));
      assert Classify(Generated(a, pattern), Read(name)) == Classify(Generated(b, pattern), Read(name));
    }
    AgreementCovers(a, b, Background, pattern);
    AgreementCovers(b, a, Background, pattern);
    if pattern.AsymmetricTaskStorage? {
      AgreementCovers(a, b, Foreground, pattern);
      AgreementCovers(b, a, Foreground, pattern);
    }
  }

  /** The generated classifiers agree on every name if and only if the manifests are interchangeable. */
  lemma SameClassifierIff(a: seq<Entry>, b: seq<Entry>, pattern: Pattern)
    requires Usable(a, pattern) && Usable(b, pattern)
    ensures SameClassifier(a, b, pattern) <==> Interchangeable(a, b, pattern)
  {
    if Interchangeable(a, b, pattern) {
      InterchangeableSameClassifier(a, b, pattern);
    }
    if SameClassifier(a, b, pattern) {
      SameClassifierCovers(a, b, pattern);
    }
  }

  /**
   Two manifests give schedulers that take the same steps on every schedule if and only if
   they are interchangeable, whichever template is used.
   */
  lemma SameSchedulerIff(
      a: seq<Entry>, b: seq<Entry>, pattern: Pattern, nrCpus: nat, may: (Task, Cpu) -> bool)
    requires Usable(a, pattern) && Usable(b, pattern) && nrCpus > 0
    ensures TraceEquivalent(Host(FromTemplate(a, pattern), nrCpus, may), Host(FromTemplate(b, pattern), nrCpus, may))
       <==> Interchangeable(a, b, pattern)
  {
    SameClassifierIff(a, b, pattern);
    if Interchangeable(a, b, pattern) {
      SameClassifierSameScheduler(a, b, pattern, nrCpus, may);
    }
    if TraceEquivalent(Host(FromTemplate(a, pattern), nrCpus, may), Host(FromTemplate(b, pattern), nrCpus, may)) {
      SameSchedulerSameClassifier(a, b, pattern, nrCpus, may);
    }
  }

  lemma SameClassifierSameScheduler(
      a: seq<Entry>, b: seq<Entry>, pattern: Pattern, nrCpus: nat, may: (Task, Cpu) -> bool)
    requires Usable(a, pattern) && Usable(b, pattern) && SameClassifier(a, b, pattern)
    ensures TraceEquivalent(Host(FromTemplate(a, pattern), nrCpus, may), Host(FromTemplate(b, pattern), nrCpus, may))
  {
    var g, h := FromTemplate(a, pattern), FromTemplate(b, pattern);
    assert forall read :: g.classify(read) == h.classify(read);
    SameHostsAreTraceEquivalent(Host(g, nrCpus, may), Host(h, nrCpus, may));
  }

  lemma SameSchedulerSameClassifier(
      a: seq<Entry>, b: seq<Entry>, pattern: Pattern, nrCpus: nat, may: (Task, Cpu) -> bool)
    requires Usable(a, pattern) && Usable(b, pattern) && nrCpus > 0
    requires TraceEquivalent(Host(FromTemplate(a, pattern), nrCpus, may), Host(FromTemplate(b, pattern), nrCpus, may))
    ensures SameClassifier(a, b, pattern)
  {
    forall read
      ensures Classify(Generated(a, pattern), read) == Classify(Generated(b, pattern), read)
    {
      EquivalentHostsClassifyAlike(Host(FromTemplate(a, pattern), nrCpus, may),
                                   Host(FromTemplate(b, pattern), nrCpus, may), read);
      GeneratedMeaning(a, pattern, read);
      GeneratedMeaning(b, pattern, read);
    }
  }

  // ----- what the numbers say

  lemma SameKeysCover(a: seq<Entry>, b: seq<Entry>, pattern: Pattern)
    requires Keys(a, Background) <= Keys(b, Background)
    requires WellFormed(a, Background) && WellFormed(b, Background)
    ensures Covers(b, a, Background, pattern)
  {
    forall i | 0 <= i < |a| && a[i].role == Background && |Truncated(a[i])| < COMM_LEN
      ensures Matches(b, Background, Truncated(a[i]))
    {
      assert Matches(a, Background, Truncated(a[i]));
      ContainedKeysContainedMatches(a, b, Truncated(a[i]));
    }
  }

  lemma PerfectF1Covers(generated: seq<Entry>, truth: seq<Entry>, pattern: Pattern)
    requires Usable(generated, pattern) && Usable(truth, pattern)
    requires ComputeMetrics(generated, truth).f1 == 1.0
    ensures Covers(truth, generated, Background, pattern) && Covers(generated, truth, Background, pattern)
  {
    PerfectF1(Keys(generated, Background), Keys(truth, Background), Keys(truth, Foreground));
    UsableManifests(generated, pattern);
    UsableManifests(truth, pattern);
    SameKeysCover(generated, truth, pattern);
    SameKeysCover(truth, generated, pattern);
  }

  /**
   F1 = 1: the schedulers generated from the two manifests with pattern A or B classify
   every task alike, and so take the same steps on every schedule.
   */
  lemma PerfectF1MeansSameScheduler(
      generated: seq<Entry>, truth: seq<Entry>, pattern: Pattern, nrCpus: nat, may: (Task, Cpu) -> bool)
    requires Usable(generated, pattern) && Usable(truth, pattern) && !pattern.AsymmetricTaskStorage?
    requires ComputeMetrics(generated, truth).f1 == 1.0
    ensures forall read :: Classify(Generated(generated, pattern), read) == Classify(Generated(truth, pattern), read)
    ensures TraceEquivalent(Host(FromTemplate(generated, pattern), nrCpus, may),
                            Host(FromTemplate(truth, pattern), nrCpus, may))
  {
    PerfectF1Covers(generated, truth, pattern);
    SameClassifierIff(generated, truth, pattern);
    assert SameClassifier(generated, truth, pattern);
    SameClassifierSameScheduler(generated, truth, pattern, nrCpus, may);
  }

  /** For pattern C, which also looks at foreground entries, F1 = 1 leaves exactly those open. */
  lemma PerfectF1ForPatternC(
      generated: seq<Entry>, truth: seq<Entry>, nrCpus: nat, may: (Task, Cpu) -> bool)
    requires Usable(generated, AsymmetricTaskStorage) && Usable(truth, AsymmetricTaskStorage) && nrCpus > 0
    requires ComputeMetrics(generated, truth).f1 == 1.0
    ensures TraceEquivalent(Host(FromTemplate(generated, AsymmetricTaskStorage), nrCpus, may),
                            Host(FromTemplate(truth, AsymmetricTaskStorage), nrCpus, may))
       <==> Covers(truth, generated, Foreground, AsymmetricTaskStorage)
            && Covers(generated, truth, Foreground, AsymmetricTaskStorage)
  {
    PerfectF1Covers(generated, truth, AsymmetricTaskStorage);
    SameSchedulerIff(generated, truth, AsymmetricTaskStorage, nrCpus, may);
  }

  /** A clean verdict has the same consequence. */
  lemma CleanPassMeansSameScheduler(
      generated: Manifest, truth: Manifest, pattern: Pattern, nrCpus: nat, may: (Task, Cpu) -> bool)
    requires Usable(generated.threads, pattern) && Usable(truth.threads, pattern)
    requires !pattern.AsymmetricTaskStorage? && VerdictOf(CompareCounts(generated, truth)) == Pass
    ensures TraceEquivalent(Host(FromTemplate(generated.threads, pattern), nrCpus, may),
                            Host(FromTemplate(truth.threads, pattern), nrCpus, may))
  {
    CleanPassIffPerfect(generated, truth);
    PerfectF1MeansSameScheduler(generated.threads, truth.threads, pattern, nrCpus, may);
  }

  /** Manifests that differ in the identification type alone are interchangeable. */
  lemma TypesDoNotMatter(a: seq<Entry>, b: seq<Entry>, pattern: Pattern)
    requires |a| == |b| && forall i :: 0 <= i < |a| ==> b[i] == a[i].(idType := b[i].idType)
    ensures Interchangeable(a, b, pattern)
  {
    forall i | 0 <= i < |a|
      ensures a[i].role == b[i].role && Truncated(a[i]) == Truncated(b[i])
    {
      assert KeyOf(a[i]) == KeyOf(b[i]);
    }
    forall i | 0 <= i < |a|
      ensures Matches(a, a[i].role, Truncated(a[i])) && Matches(b, a[i].role, Truncated(a[i]))
    {
      assert Truncated(b[i]) <= Truncated(a[i]);
    }
  }

  /**
   The checker's key includes the identification type, which the generator ignores, so
   interchangeable manifests can score F1 = 0 and give the same scheduler.
   */
  lemma ZeroF1CanMeanSameScheduler(pattern: Pattern, nrCpus: nat, may: (Task, Cpu) -> bool)
    ensures var generated := [Named(Background, "comm_exact", "bio_", 4)];
            var truth := [Named(Background, "comm_prefix", "bio_", 4)];
            && Usable(generated, pattern) && Usable(truth, pattern)
            && ComputeMetrics(generated, truth).f1 == 0.0
            && Interchangeable(generated, truth, pattern)
            && TraceEquivalent(Host(FromTemplate(generated, pattern), nrCpus, may),
                               Host(FromTemplate(truth, pattern), nrCpus, may))
  {
    var generated := [Named(Background, "comm_exact", "bio_", 4)];
    var truth := [Named(Background, "comm_prefix", "bio_", 4)];
    DisjointKeysScoreZero();
    OneEntryPair(generated, truth, pattern);
    InterchangeableSameClassifier(generated, truth, pattern);
    SameClassifierSameScheduler(generated, truth, pattern, nrCpus, may);
  }

  lemma OneEntryPair(a: seq<Entry>, b: seq<Entry>, pattern: Pattern)
    requires a == [Named(Background, "comm_exact", "bio_", 4)]
    requires b == [Named(Background, "comm_prefix", "bio_", 4)]
    ensures Usable(a, pattern) && Usable(b, pattern) && Interchangeable(a, b, pattern)
  {
    PlainPrefixes();
    CleanManifestsAreUsable(a, pattern);
    CleanManifestsAreUsable(b, pattern);
    TypesDoNotMatter(a, b, pattern);
  }

  lemma DisjointKeysScoreZero()
    ensures ComputeMetrics([Named(Background, "comm_exact", "bio_", 4)],
                           [Named(Background, "comm_prefix", "bio_", 4)]).f1 == 0.0
  {
    var a, b := Named(Background, "comm_exact", "bio_", 4), Named(Background, "comm_prefix", "bio_", 4);
    assert Keys([a], Background) == {KeyFor(a)} && Keys([b], Background) == {KeyFor(b)};
    assert KeyFor(a).idType != KeyFor(b).idType;
    F1Law({KeyFor(a)}, {KeyFor(b)}, Keys([b], Foreground));
    assert {KeyFor(a)} * {KeyFor(b)} == {} && {KeyFor(b)} - {KeyFor(a)} == {KeyFor(b)};
  }

  // ----- what the safety count says

  function Longer(a: string, b: string): string {
    if a <= b then b else a
  }

  /**
   A true foreground entry and a generated background entry that some name matches both of,
   where pattern C has no generated foreground entry that wins.
   */
  predicate Clash(f: Entry, b: Entry, generated: seq<Entry>, pattern: Pattern) {
    Overlap(f, b)
    && !(pattern.AsymmetricTaskStorage? && Matches(generated, Foreground, Longer(Truncated(f), Truncated(b))))
  }

  predicate Clashing(generated: seq<Entry>, truth: seq<Entry>, pattern: Pattern) {
    exists i, j :: 0 <= i < |truth| && 0 <= j < |generated| && Clash(truth[i], generated[j], generated, pattern)
  }

  /** No name of a true foreground entry is background to the generated scheduler. */
  ghost predicate ForegroundIsSafe(generated: seq<Entry>, truth: seq<Entry>, pattern: Pattern)
    requires Usable(generated, pattern)
  {
    forall name: Name :: Matches(truth, Foreground, name) ==>
      Classify(Generated(generated, pattern), Read(name)) != Some(Hog)
  }

  lemma ClashIsUnsafe(generated: seq<Entry>, truth: seq<Entry>, pattern: Pattern, i: nat, j: nat)
    requires Usable(generated, pattern) && WellFormed(truth, Foreground)
    requires i < |truth| && j < |generated| && Clash(truth[i], generated[j], generated, pattern)
    ensures !ForegroundIsSafe(generated, truth, pattern)
  {
    var f, b := Truncated(truth[i]), Truncated(generated[j]);
    var name := Longer(f, b);
    UsableManifests(generated, pattern);
    assert GoodPattern(f) && GoodPattern(b);
    assert IsName(name) && f <= name && b <= name;
    assert Matches(truth, Foreground, name) && Matches(generated, Background, name);
    GeneratedMeaning(generated, pattern, Read(name));
  }

  lemma UnsafeIsClash(generated: seq<Entry>, truth: seq<Entry>, pattern: Pattern, name: Name)
    requires Usable(generated, pattern) && Matches(truth, Foreground, name)
    requires Classify(Generated(generated, pattern), Read(name)) == Some(Hog)
    ensures Clashing(generated, truth, pattern)
  {
    GeneratedMeaning(generated, pattern, Read(name));
    assert Matches(generated, Background, name);
    var i :| 0 <= i < |truth| && truth[i].role == Foreground && Truncated(truth[i]) <= name;
    var j :| 0 <= j < |generated| && generated[j].role == Background && Truncated(generated[j]) <= name;
    var f, b := Truncated(truth[i]), Truncated(generated[j]);
    PrefixesOfOneNameCompare(f, b, name);
    if pattern.AsymmetricTaskStorage? && Matches(generated, Foreground, Longer(f, b)) {
      MatchExtends(generated, Foreground, Longer(f, b), name);
    }
    assert Clash(truth[i], generated[j], generated, pattern);
  }

  /**
   True foreground names are safe from the generated scheduler if and only if no true
   foreground and generated background entry clash, whatever the safety count is.
   */
  lemma ForegroundIsSafeIff(generated: seq<Entry>, truth: seq<Entry>, pattern: Pattern)
    requires Usable(generated, pattern) && WellFormed(truth, Foreground)
    ensures ForegroundIsSafe(generated, truth, pattern) <==> !Clashing(generated, truth, pattern)
  {
    if Clashing(generated, truth, pattern) {
      var i, j :| 0 <= i < |truth| && 0 <= j < |generated| && Clash(truth[i], generated[j], generated, pattern);
      ClashIsUnsafe(generated, truth, pattern, i, j);
    }
    if !ForegroundIsSafe(generated, truth, pattern) {
      var name: Name :| Matches(truth, Foreground, name)
                        && Classify(Generated(generated, pattern), Read(name)) == Some(Hog);
      UnsafeIsClash(generated, truth, pattern, name);
    }
  }

  lemma ViolatingEntries(generated: seq<Entry>, truth: seq<Entry>) returns (i: nat, j: nat)
    requires ComputeMetrics(generated, truth).safety > 0
    ensures i < |truth| && truth[i].role == Foreground && j < |generated| && generated[j].role == Background
    ensures KeyFor(truth[i]) == KeyFor(generated[j])
  {
    var gen, fg := Keys(generated, Background), Keys(truth, Foreground);
    EmptySizes(fg, gen);
    var key :| key in fg && key in gen;
    var f :| f in truth && f.role == Foreground && KeyFor(f) == key;
    var b :| b in generated && b.role == Background && KeyFor(b) == key;
    i :| 0 <= i < |truth| && truth[i] == f;
    j :| 0 <= j < |generated| && generated[j] == b;
  }

  /** A counted violation is a real one for patterns A and B, unless no name can match its entry. */
  lemma ViolationsAreReal(generated: seq<Entry>, truth: seq<Entry>, pattern: Pattern)
    requires Usable(generated, pattern) && WellFormed(truth, Foreground) && !pattern.AsymmetricTaskStorage?
    requires ComputeMetrics(generated, truth).safety > 0
    requires forall t <- truth :: t.role == Foreground ==> |Truncated(t)| < COMM_LEN
    ensures !ForegroundIsSafe(generated, truth, pattern)
  {
    var i, j := ViolatingEntries(generated, truth);
    UsableManifests(generated, pattern);
    SameKeysOverlap(generated, truth, i, j);
    ClashIsUnsafe(generated, truth, pattern, i, j);
  }

  lemma SameKeysOverlap(generated: seq<Entry>, truth: seq<Entry>, i: nat, j: nat)
    requires WellFormed(generated, Background) && WellFormed(truth, Foreground)
    requires i < |truth| && truth[i].role == Foreground && j < |generated| && generated[j].role == Background
    requires KeyFor(truth[i]) == KeyFor(generated[j]) && |Truncated(truth[i])| < COMM_LEN
    ensures Overlap(truth[i], generated[j])
  {
    assert GoodPattern(Truncated(truth[i])) && GoodPattern(Truncated(generated[j]));
    KeyDeterminesBytes(truth[i], generated[j]);
  }

  lemma UnsafeName(generated: seq<Entry>, truth: seq<Entry>, pattern: Pattern, name: Name)
    requires Usable(generated, pattern) && !pattern.AsymmetricTaskStorage?
    requires Matches(generated, Background, name) && Matches(truth, Foreground, name)
    ensures Classify(Generated(generated, pattern), Read(name)) == Some(Hog)
    ensures !ForegroundIsSafe(generated, truth, pattern)
  {
    GeneratedMeaning(generated, pattern, Read(name));
  }

  /**
   The converse fails for every generated prefix that properly starts a true foreground one:
   the keys differ, so the safety count is 0, and the foreground thread is background.
   */
  lemma ZeroSafetyCanMisclassify(
      generated: seq<Entry>, truth: seq<Entry>, b: Entry, f: Entry, name: Name, pattern: Pattern)
    requires generated == [b] && truth == [f] && b.role == Background && f.role == Foreground
    requires ComparesAll(b) && ComparesAll(f) && f.prefix.value == name && b.prefix.value < name
    requires !pattern.AsymmetricTaskStorage?
    ensures ComputeMetrics(generated, truth).safety == 0
    ensures Usable(generated, pattern) && WellFormed(truth, Foreground)
    ensures Classify(Generated(generated, pattern), Read(name)) == Some(Hog)
    ensures !ForegroundIsSafe(generated, truth, pattern)
  {
    CleanManifestsAreUsable(generated, pattern);
    OneEntryMatches(b, name);
    OneEntryMatches(f, name);
    NoCommonKey(b, f);
    UnsafeName(generated, truth, pattern, name);
  }

  lemma OneEntryMatches(t: Entry, name: string)
    requires ComparesAll(t) && t.prefix.value <= name
    ensures Truncated(t) == t.prefix.value && Matches([t], t.role, name) && WellFormed([t], t.role)
  {
    assert Truncated([t][0]) <= name;
  }

  lemma NoCommonKey(b: Entry, f: Entry)
    requires b.role == Background && f.role == Foreground && b.prefix != f.prefix && b.prefix.Value? && f.prefix.Value?
    ensures ComputeMetrics([b], [f]).safety == 0
  {
    assert Keys([b], Background) == {KeyFor(b)} && Keys([f], Foreground) == {KeyFor(f)};
    EmptySizes(Keys([f], Foreground), Keys([b], Background));
  }

  /** Such a pair: a background prefix `redis` and the thread `redis-server`. */
  lemma BroadRedisPrefix()
    ensures var b := Named(Background, "comm_prefix", "redis", 5);
            var f := Named(Foreground, "comm_exact", "redis-server", 12);
            ComparesAll(b) && ComparesAll(f) && b.prefix.value < f.prefix.value && IsName(f.prefix.value)
  {
    PlainPrefixes();
  }
}
