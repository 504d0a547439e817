/**
 Judging a generated manifest against the ground truth, by set counts and by loops, and
 what the numbers say about the schedulers generated from the two.
 */
module Verify {
  import opened Wrappers
  import opened Manifest
  import opened Generator

  /** The lookup key of an entry: `get` makes a missing member and a `null` the same. */
  datatype Key = Key(idType: string, prefix: Option<string>, length: Option<int>)

  function Get<T>(member: Json<T>): Option<T> {
    if member.Value? then Some(member.value) else None
  }

  function KeyFor(entry: Entry): Key {
    Key(entry.idType, Get(entry.prefix), Get(entry.length))
  }

  function Keys(threads: seq<Entry>, role: Role): set<Key> {
    set t <- threads | t.role == role :: KeyFor(t)
  }

  type Lookup = map<Key, Entry>

  /** The last entry of the role with that key. */
  predicate LastWithKey(threads: seq<Entry>, role: Role, key: Key, t: Entry) {
    exists i :: 0 <= i < |threads| && IsLastWithKey(threads, role, key, i) && threads[i] == t
  }

  predicate IsLastWithKey(threads: seq<Entry>, role: Role, key: Key, i: nat)
    requires i < |threads|
  {
    threads[i].role == role && KeyFor(threads[i]) == key
    && forall j :: i < j < |threads| && threads[j].role == role ==> KeyFor(threads[j]) != key
  }

  ghost predicate IsLookup(lookup: Lookup, threads: seq<Entry>, role: Role) {
    lookup.Keys == Keys(threads, role) && forall key <- lookup :: LastWithKey(threads, role, key, lookup[key])
  }

  lemma KeysStep(threads: seq<Entry>, role: Role, t: Entry)
    ensures Keys(threads + [t], role) == Keys(threads, role) + if t.role == role then {KeyFor(t)} else {}
  {
  }

  lemma LastStep(threads: seq<Entry>, role: Role, t: Entry, key: Key)
    ensures t.role == role && key == KeyFor(t) ==> LastWithKey(threads + [t], role, key, t)
    ensures forall u :: LastWithKey(threads, role, key, u) && !(t.role == role && key == KeyFor(t)) ==>
              LastWithKey(threads + [t], role, key, u)
  {
    var all := threads + [t];
    if t.role == role && key == KeyFor(t) {
      assert IsLastWithKey(all, role, key, |threads|) && all[|threads|] == t;
    } else {
      forall u | LastWithKey(threads, role, key, u)
        ensures LastWithKey(all, role, key, u)
      {
        var i :| 0 <= i < |threads| && IsLastWithKey(threads, role, key, i) && threads[i] == u;
        assert IsLastWithKey(all, role, key, i) && all[i] == u;
      }
    }
  }

  lemma LookupStep(lookup: Lookup, threads: seq<Entry>, role: Role, t: Entry)
    requires IsLookup(lookup, threads, role)
    ensures IsLookup(if t.role == role then lookup[KeyFor(t) := t] else lookup, threads + [t], role)
  {
    KeysStep(threads, role, t);
    var after := if t.role == role then lookup[KeyFor(t) := t] else lookup;
    forall key | key in after
      ensures LastWithKey(threads + [t], role, key, after[key])
    {
      LastStep(threads, role, t, key);
    }
  }

  /** The two lookups of a manifest; a later entry replaces an earlier one with its key. */
  method NormalizeThreads(threads: seq<Entry>) returns (bg: Lookup, fg: Lookup)
    ensures bg.Keys == Keys(threads, Background) && fg.Keys == Keys(threads, Foreground)
    ensures forall key <- bg :: LastWithKey(threads, Background, key, bg[key])
    ensures forall key <- fg :: LastWithKey(threads, Foreground, key, fg[key])
  {
    bg, fg := map[], map[];
    for i := 0 to |threads|
      invariant IsLookup(bg, threads[..i], Background) && IsLookup(fg, threads[..i], Foreground)
    {
      var t := threads[i];
      assert threads[..i + 1] == threads[..i] + [t];
      LookupStep(bg, threads[..i], Background, t);
      LookupStep(fg, threads[..i], Foreground, t);
      if t.role == Background {
        bg := bg[KeyFor(t) := t];
      } else {
        fg := fg[KeyFor(t) := t];
      }
    }
    assert threads[..|threads|] == threads;
  }

  // ----- metrics

  datatype Metrics = Metrics(tp: nat, fn: nat, safety: nat, extra: nat, precision: real, recall: real, f1: real)

  function Ratio(hits: nat, misses: nat): (r: real)
    ensures 0.0 <= r <= 1.0
    ensures r == 1.0 <==> misses == 0
    ensures r == 0.0 <==> hits == 0 && misses > 0
  {
    if hits + misses > 0 then
      RatioBounds(hits, misses);
      hits as real / (hits + misses) as real
    else 1.0
  }

  lemma RatioTimes(hits: nat, misses: nat)
    ensures Ratio(hits, misses) * (hits + misses) as real == hits as real
  {
    if hits + misses > 0 {
      RatioBounds(hits, misses);
    }
  }

  lemma RatioBounds(hits: nat, misses: nat)
    requires hits + misses > 0
    ensures 0.0 <= hits as real / (hits + misses) as real <= 1.0
    ensures hits as real / (hits + misses) as real == 1.0 <==> misses == 0
    ensures hits as real / (hits + misses) as real == 0.0 <==> hits == 0
    ensures hits as real / (hits + misses) as real * (hits + misses) as real == hits as real
  {
    assert (hits + misses) as real == hits as real + misses as real;
    ShareBounds(hits as real, (hits + misses) as real);
  }

  lemma ShareBounds(x: real, n: real)
    requires 0.0 <= x <= n && n > 0.0
    ensures 0.0 <= x / n <= 1.0
    ensures x / n == 1.0 <==> x == n
    ensures x / n == 0.0 <==> x == 0.0
    ensures x / n * n == x
  {
    var q := x / n;
    assert q * n == x;
    if q < 0.0 {
      PositiveProduct(-q, n);
    } else if q > 1.0 {
      PositiveProduct(q - 1.0, n);
    }
    if x == n {
      CancelFactor(q, 1.0, n);
    } else if x == 0.0 {
      CancelFactor(q, 0.0, n);
    }
  }

  lemma PositiveProduct(x: real, y: real)
    requires x > 0.0 && y > 0.0
    ensures x * y > 0.0
  {
  }

  function HarmonicMean(p: real, r: real): real
    requires p >= 0.0 && r >= 0.0
  {
    if p + r > 0.0 then 2.0 * p * r / (p + r) else 0.0
  }

  function MetricsFrom(tp: nat, fn: nat, safety: nat, extra: nat): Metrics {
    var precision, recall := Ratio(tp, safety + extra), Ratio(tp, fn);
    Metrics(tp, fn, safety, extra, precision, recall, HarmonicMean(precision, recall))
  }

  function MetricsOf(genBg: set<Key>, gtBg: set<Key>, gtFg: set<Key>): Metrics {
    MetricsFrom(|genBg * gtBg|, |gtBg - genBg|, |gtFg * genBg|, |genBg - (gtBg + gtFg)|)
  }

  function ComputeMetrics(generated: seq<Entry>, truth: seq<Entry>): Metrics {
    MetricsOf(Keys(generated, Background), Keys(truth, Background), Keys(truth, Foreground))
  }

  lemma SplitSize<T>(a: set<T>, b: set<T>)
    ensures |a * b| + |a - b| == |a|
  {
    assert a == (a * b) + (a - b);
  }

  /**
   The counts: every true background key is found or missed; every generated one is a hit,
   a safety violation or extra, where a key the truth lists under both roles counts twice.
   */
  lemma CountLaws(genBg: set<Key>, gtBg: set<Key>, gtFg: set<Key>)
    ensures var m := MetricsOf(genBg, gtBg, gtFg);
            && m.tp + m.fn == |gtBg|
            && m.tp + m.safety + m.extra == |genBg| + |genBg * gtBg * gtFg|
  {
    SplitSize(gtBg, genBg);
    assert gtBg * genBg == genBg * gtBg && gtFg * genBg == genBg * gtFg;
    SplitSize(genBg, gtBg);
    var rest := genBg - gtBg;
    SplitSize(rest, gtFg);
    assert rest - gtFg == genBg - (gtBg + gtFg);
    SplitSize(genBg * gtFg, gtBg);
    assert (genBg * gtFg) * gtBg == genBg * gtBg * gtFg;
    assert (genBg * gtFg) - gtBg == rest * gtFg;
  }

  /** Precision is tp out of what was generated rightly or wrongly, recall is tp out of what is true. */
  lemma PrecisionAndRecall(tp: nat, fn: nat, safety: nat, extra: nat)
    ensures var m := MetricsFrom(tp, fn, safety, extra);
            && m.tp == tp && m.fn == fn && m.safety == safety && m.extra == extra
            && m.precision * (tp + safety + extra) as real == tp as real
            && m.recall * (tp + fn) as real == tp as real
            && (tp + safety + extra == 0 ==> m.precision == 1.0)
            && (tp + fn == 0 ==> m.recall == 1.0)
  {
    RatioTimes(tp, safety + extra);
    RatioTimes(tp, fn);
    assert tp + safety + extra == tp + (safety + extra);
  }

  /** When precision is 1 and 0, on the keys. */
  lemma ExtremePrecision(genBg: set<Key>, gtBg: set<Key>, gtFg: set<Key>)
    ensures MetricsOf(genBg, gtBg, gtFg).precision == 1.0 <==> genBg <= gtBg && genBg !! gtFg
    ensures MetricsOf(genBg, gtBg, gtFg).precision == 0.0 <==> genBg !! gtBg && genBg != {}
  {
    EmptySizes(genBg, gtBg);
    EmptySizes(gtFg, genBg);
    EmptySizes(genBg, gtBg + gtFg);
    WithinTruth(genBg, gtBg, gtFg);
  }

  /** When recall is 1 and 0. */
  lemma ExtremeRecall(genBg: set<Key>, gtBg: set<Key>, gtFg: set<Key>)
    ensures MetricsOf(genBg, gtBg, gtFg).recall == 1.0 <==> gtBg <= genBg
    ensures MetricsOf(genBg, gtBg, gtFg).recall == 0.0 <==> genBg !! gtBg && gtBg != {}
  {
    EmptySizes(genBg, gtBg);
    EmptySizes(gtBg, genBg);
  }

  lemma WithinTruth(genBg: set<Key>, gtBg: set<Key>, gtFg: set<Key>)
    ensures gtFg !! genBg && genBg <= gtBg + gtFg <==> genBg <= gtBg && genBg !! gtFg
    ensures genBg !! gtBg && gtFg !! genBg && genBg <= gtBg + gtFg ==> genBg == {}
  {
    if gtFg !! genBg && genBg <= gtBg + gtFg {
      assert forall key :: key in genBg ==> key in gtBg;
    }
  }

  /** Precision and recall are shares, and F1 is 2tp / (2tp + fp + fn), or 1 without any key. */
  lemma F1Law(genBg: set<Key>, gtBg: set<Key>, gtFg: set<Key>)
    ensures var m := MetricsOf(genBg, gtBg, gtFg);
            var denominator := 2 * m.tp + (m.safety + m.extra) + m.fn;
            && 0.0 <= m.precision <= 1.0 && 0.0 <= m.recall <= 1.0 && 0.0 <= m.f1 <= 1.0
            && m.f1 * denominator as real == (2 * m.tp) as real
            && (denominator == 0 ==> m.f1 == 1.0)
  {
    var m := MetricsOf(genBg, gtBg, gtFg);
    F1OfCounts(m.tp, m.safety + m.extra, m.fn);
  }

  lemma F1OfCounts(tp: nat, fp: nat, fn: nat)
    ensures var f1 := HarmonicMean(Ratio(tp, fp), Ratio(tp, fn));
            0.0 <= f1 <= 1.0
            && f1 * (2 * tp + fp + fn) as real == (2 * tp) as real
            && (2 * tp + fp + fn == 0 ==> f1 == 1.0)
  {
    var p, r := Ratio(tp, fp), Ratio(tp, fn);
    if tp > 0 {
      var t, a, b := tp as real, (tp + fp) as real, (tp + fn) as real;
      HarmonicOfRatios(t, a, b);
      assert HarmonicMean(p, r) == 2.0 * t / (a + b);
      assert (2 * tp + fp + fn) as real == a + b;
    }
  }

  lemma HarmonicOfRatios(t: real, a: real, b: real)
    requires 0.0 < t <= a && t <= b
    ensures t / a + t / b > 0.0
    ensures 2.0 * (t / a) * (t / b) / (t / a + t / b) == 2.0 * t / (a + b)
    ensures 0.0 <= 2.0 * t / (a + b) <= 1.0
  {
    var p, r, f := t / a, t / b, 2.0 * t / (a + b);
    assert p * a == t && r * b == t && f * (a + b) == 2.0 * t;
    assert p > 0.0 && r > 0.0;
    // f * (p + r) == 2 p r, since (p + r) a b == t (a + b) and 2 p r a b == 2 t t
    assert (p + r) * (a * b) == t * (a + b) by {
      assert (p + r) * (a * b) == (p * a) * b + (r * b) * a;
    }
    assert (f * (p + r)) * (a * b) == (2.0 * p * r) * (a * b) by {
      assert (f * (p + r)) * (a * b) == f * ((p + r) * (a * b)) == f * (t * (a + b)) == (f * (a + b)) * t;
      assert (2.0 * p * r) * (a * b) == 2.0 * (p * a) * (r * b);
    }
    assert a * b > 0.0;
    CancelFactor(f * (p + r), 2.0 * p * r, a * b);
  }

  lemma CancelFactor(x: real, y: real, z: real)
    requires z > 0.0 && x * z == y * z
    ensures x == y
  {
    assert (x - y) * z == 0.0;
  }

  // ----- the comparison

  /** The three counters of the report. */
  datatype Counts = Counts(passes: nat, fails: nat, warnings: nat) {
    function Plus(other: Counts): Counts {
      Counts(passes + other.passes, fails + other.fails, warnings + other.warnings)
    }
  }

  const PASSED := Counts(1, 0, 0)
  const FAILED := Counts(0, 1, 0)
  const WARNED := Counts(0, 0, 1)

  function DefaultRoleCounts(generated: Option<Role>, truth: Option<Role>): Counts {
    if truth.Some? then
      if generated == truth then PASSED else if generated.None? then WARNED else FAILED
    else if generated.Some? then PASSED
    else Counts(0, 0, 0)
  }

  function Check(ok: bool): Counts {
    if ok then PASSED else FAILED
  }

  function HeaderChecks(
      application: bool, identification: bool, rationale: bool, generated: Option<Role>, truth: Option<Role>): Counts
  {
    Check(application).Plus(Check(identification)).Plus(Check(rationale)).Plus(DefaultRoleCounts(generated, truth))
  }

  /** The checks on the manifests' own members. */
  function HeaderCounts(generated: Manifest, truth: Manifest): Counts {
    HeaderChecks(generated.application == truth.application, generated.identification == truth.identification,
                 |generated.rationale| > 20, generated.defaultRole, truth.defaultRole)
  }

  /** What the members must be for a clean report. */
  predicate HeadersAgree(generated: Manifest, truth: Manifest) {
    && generated.application == truth.application
    && generated.identification == truth.identification
    && |generated.rationale| > 20
    && (truth.defaultRole.Some? ==> generated.defaultRole == truth.defaultRole)
  }

  /** Nothing failed and nothing was warned about. */
  predicate IsClean(counts: Counts) {
    counts.fails == counts.warnings == 0
  }

  lemma CleanHeaders(generated: Manifest, truth: Manifest)
    ensures IsClean(HeaderCounts(generated, truth)) <==> HeadersAgree(generated, truth)
  {
    CleanChecks(generated.application == truth.application, generated.identification == truth.identification,
                |generated.rationale| > 20, generated.defaultRole, truth.defaultRole);
  }

  lemma CleanChecks(a: bool, b: bool, c: bool, generated: Option<Role>, truth: Option<Role>)
    ensures IsClean(HeaderChecks(a, b, c, generated, truth))
       <==> a && b && c && (truth.Some? ==> generated == truth)
  {
    CleanSum(Check(a), Check(b), Check(c), DefaultRoleCounts(generated, truth));
    CleanCheck(a);
    CleanCheck(b);
    CleanCheck(c);
    CleanDefaultRole(generated, truth);
  }

  lemma CleanSum(x: Counts, y: Counts, z: Counts, w: Counts)
    ensures IsClean(x.Plus(y).Plus(z).Plus(w)) <==> IsClean(x) && IsClean(y) && IsClean(z) && IsClean(w)
  {
    CleanPlus(x, y);
    CleanPlus(x.Plus(y), z);
    CleanPlus(x.Plus(y).Plus(z), w);
  }

  lemma CleanCheck(ok: bool)
    ensures IsClean(Check(ok)) <==> ok
  {
  }

  lemma CleanDefaultRole(generated: Option<Role>, truth: Option<Role>)
    ensures IsClean(DefaultRoleCounts(generated, truth)) <==> (truth.Some? ==> generated == truth)
  {
  }

  lemma CleanPlus(a: Counts, b: Counts)
    ensures IsClean(a.Plus(b)) <==> IsClean(a) && IsClean(b)
  {
  }

  predicate Present(prefix: Option<string>) {
    prefix.Some? && prefix.value != ""
  }

  /** The same first three characters count as a partial match. */
  predicate PartialMatch(found: Key, key: Key) {
    Present(found.prefix) && Present(key.prefix) && Slice(key.prefix.value, Some(3)) <= found.prefix.value
  }

  /** Character by character; a shorter prefix is compared in full. */
  lemma PartialMatchMeaning(found: Key, key: Key)
    ensures PartialMatch(found, key) <==>
            && found.prefix.Some? && key.prefix.Some? && found.prefix.value != "" && key.prefix.value != ""
            && StartsAlike(found.prefix.value, key.prefix.value)
  {
    if Present(found.prefix) && Present(key.prefix) {
      StartsAlikeIff(found.prefix.value, key.prefix.value);
    }
  }

  predicate StartsAlike(f: string, k: string) {
    forall i :: 0 <= i < 3 && i < |k| ==> i < |f| && f[i] == k[i]
  }

  lemma StartsAlikeIff(f: string, k: string)
    ensures Slice(k, Some(3)) <= f <==> StartsAlike(f, k)
  {
    var start := Slice(k, Some(3));
    assert forall i :: 0 <= i < |start| ==> start[i] == k[i];
    if StartsAlike(f, k) && start != "" {
      var last := |start| - 1;
      assert last < 3 && k[last] == start[last];
      assert last < |f| && f[..|start|] == start;
    }
  }

  predicate HasPartial(genBg: set<Key>, key: Key) {
    exists found <- genBg :: PartialMatch(found, key)
  }

  /** True background keys that were missed, with or without a partial match. */
  function Missed(genBg: set<Key>, gtBg: set<Key>, partial: bool): set<Key> {
    set key <- gtBg - genBg | HasPartial(genBg, key) == partial
  }

  /** The three counters, from the counts of the header checks and the sets of keys. */
  function CompareSets(header: Counts, genBg: set<Key>, gtBg: set<Key>, gtFg: set<Key>): Counts {
    header.Plus(Discovery(genBg, gtBg)).Plus(Safety(genBg, gtFg)).Plus(Counts(0, 0, |genBg - gtBg|))
  }

  function CompareCounts(generated: Manifest, truth: Manifest): Counts {
    CompareSets(HeaderCounts(generated, truth), Keys(generated.threads, Background),
                Keys(truth.threads, Background), Keys(truth.threads, Foreground))
  }

  /** The inner loop of the discovery check. */
  method FindPartial(genBg: set<Key>, key: Key) returns (partial: bool)
    ensures partial == HasPartial(genBg, key)
  {
    partial := false;
    var rest := genBg;
    while rest != {}
      invariant rest <= genBg
      invariant partial ==> HasPartial(genBg, key)
      invariant !partial ==> forall found <- genBg - rest :: !PartialMatch(found, key)
      decreases rest
    {
      var found :| found in rest;
      if PartialMatch(found, key) {
        return true;
      }
      rest := rest - {found};
    }
  }

  /** What the discovery check counts for a set of true background keys. */
  function Discovery(genBg: set<Key>, keys: set<Key>): Counts {
    Counts(|genBg * keys|, |Missed(genBg, keys, false)|, |Missed(genBg, keys, true)|)
  }

  lemma MoveOver<T>(seen: set<T>, rest: set<T>, all: set<T>, x: T)
    requires seen !! rest && seen + rest == all && x in rest
    ensures x !in seen && (seen + {x}) !! (rest - {x}) && (seen + {x}) + (rest - {x}) == all
  {
  }

  /** The loop over the true background keys. */
  method CheckDiscovery(genBg: set<Key>, gtBg: set<Key>) returns (counts: Counts)
    ensures counts == Discovery(genBg, gtBg)
  {
    counts := Counts(0, 0, 0);
    var rest := gtBg;
    ghost var seen: set<Key> := {};
    while rest != {}
      invariant seen !! rest && seen + rest == gtBg
      invariant counts == Discovery(genBg, seen)
      decreases rest
    {
      var key :| key in rest;
      DiscoveryStep(genBg, seen, key);
      if key in genBg {
        counts := counts.Plus(PASSED);
      } else {
        var partial := FindPartial(genBg, key);
        counts := counts.Plus(if partial then WARNED else FAILED);
      }
      MoveOver(seen, rest, gtBg, key);
      rest, seen := rest - {key}, seen + {key};
    }
    assert seen == gtBg;
  }

  lemma MissedStep(genBg: set<Key>, seen: set<Key>, key: Key, partial: bool)
    requires key !in seen
    ensures |Missed(genBg, seen + {key}, partial)|
         == |Missed(genBg, seen, partial)| + if key !in genBg && HasPartial(genBg, key) == partial then 1 else 0
  {
    if key !in genBg && HasPartial(genBg, key) == partial {
      assert Missed(genBg, seen + {key}, partial) == Missed(genBg, seen, partial) + {key};
    } else {
      assert Missed(genBg, seen + {key}, partial) == Missed(genBg, seen, partial);
    }
  }

  lemma DiscoveryStep(genBg: set<Key>, seen: set<Key>, key: Key)
    requires key !in seen
    ensures Discovery(genBg, seen + {key}) == Discovery(genBg, seen).Plus(
              if key in genBg then PASSED else if HasPartial(genBg, key) then WARNED else FAILED)
  {
    MissedStep(genBg, seen, key, true);
    MissedStep(genBg, seen, key, false);
    AddedElement(seen, genBg, key);
    assert genBg * seen == seen * genBg && genBg * (seen + {key}) == (seen + {key}) * genBg;
  }

  /** What the safety check counts for a set of true foreground keys. */
  function Safety(genBg: set<Key>, keys: set<Key>): Counts {
    Counts(|keys - genBg|, |keys * genBg|, 0)
  }

  /** The loop over the true foreground keys. */
  method CheckSafety(genBg: set<Key>, gtFg: set<Key>) returns (counts: Counts)
    ensures counts == Safety(genBg, gtFg)
  {
    counts := Counts(0, 0, 0);
    var rest := gtFg;
    ghost var seen: set<Key> := {};
    while rest != {}
      invariant seen !! rest && seen + rest == gtFg
      invariant counts == Safety(genBg, seen)
      decreases rest
    {
      var key :| key in rest;
      SafetyStep(genBg, seen, key);
      counts := counts.Plus(if key in genBg then FAILED else PASSED);
      MoveOver(seen, rest, gtFg, key);
      rest, seen := rest - {key}, seen + {key};
    }
    assert seen == gtFg;
  }

  lemma AddedElement<T>(a: set<T>, b: set<T>, x: T)
    requires x !in a
    ensures |(a + {x}) * b| == |a * b| + if x in b then 1 else 0
    ensures |(a + {x}) - b| == |a - b| + if x in b then 0 else 1
  {
    if x in b {
      assert (a + {x}) * b == a * b + {x};
      assert (a + {x}) - b == a - b;
    } else {
      assert (a + {x}) * b == a * b;
      assert (a + {x}) - b == (a - b) + {x};
    }
  }

  lemma SafetyStep(genBg: set<Key>, seen: set<Key>, key: Key)
    requires key !in seen
    ensures Safety(genBg, seen + {key}) == Safety(genBg, seen).Plus(if key in genBg then FAILED else PASSED)
  {
    AddedElement(seen, genBg, key);
  }

  /** The loop over the generated background keys the truth does not list as background. */
  method CheckExtra(genBg: set<Key>, gtBg: set<Key>) returns (warnings: nat)
    ensures warnings == |genBg - gtBg|
  {
    warnings := 0;
    var extra := genBg - gtBg;
    var rest := extra;
    while rest != {}
      invariant rest <= extra && warnings == |extra - rest|
      decreases rest
    {
      var key :| key in rest;
      assert extra - (rest - {key}) == (extra - rest) + {key};
      warnings := warnings + 1;
      rest := rest - {key};
    }
    assert extra - rest == extra;
  }

  method CompareManifests(generated: Manifest, truth: Manifest) returns (counts: Counts)
    ensures counts == CompareCounts(generated, truth)
  {
    counts := HeaderCounts(generated, truth);
    var genBg, genFg := NormalizeThreads(generated.threads);
    var gtBg, gtFg := NormalizeThreads(truth.threads);
    var discovery := CheckDiscovery(genBg.Keys, gtBg.Keys);
    counts := counts.Plus(discovery);
    var safety := CheckSafety(genBg.Keys, gtFg.Keys);
    var extra := CheckExtra(genBg.Keys, gtBg.Keys);
    counts := counts.Plus(safety).Plus(Counts(0, 0, extra));
  }

  datatype Verdict = Fail | PassWithWarnings | Pass

  function VerdictOf(counts: Counts): Verdict {
    if counts.fails > 0 then Fail else if counts.warnings > 0 then PassWithWarnings else Pass
  }

  /**
   The loops count what the metrics count: hits are tp, missed keys are fn however they are
   reported, safety failures are safety violations, and the extra-key warnings are the
   extras plus the safety violations the truth does not also list as background.
   */
  predicate CountersMatch(
      counts: Counts, header: Counts, m: Metrics, genBg: set<Key>, gtBg: set<Key>, gtFg: set<Key>)
  {
    var partial, notBoth := |Missed(genBg, gtBg, true)|, |(gtFg * genBg) - gtBg|;
    && partial <= m.fn && notBoth <= m.safety <= |gtFg|
    && counts == header.Plus(
         Counts(m.tp + |gtFg| - m.safety, m.fn - partial + m.safety, partial + m.extra + notBoth))
  }

  lemma CountersAgree(header: Counts, genBg: set<Key>, gtBg: set<Key>, gtFg: set<Key>)
    ensures CountersMatch(CompareSets(header, genBg, gtBg, gtFg), header, MetricsOf(genBg, gtBg, gtFg),
                          genBg, gtBg, gtFg)
  {
    MissedSizes(genBg, gtBg);
    SplitSize(gtFg, genBg);
    ExtraSizes(genBg, gtBg, gtFg);
    SplitSize(gtFg * genBg, gtBg);
  }

  lemma MissedSizes(genBg: set<Key>, gtBg: set<Key>)
    ensures |gtBg - genBg| == |Missed(genBg, gtBg, true)| + |Missed(genBg, gtBg, false)|
  {
    assert gtBg - genBg == Missed(genBg, gtBg, true) + Missed(genBg, gtBg, false);
  }

  lemma ExtraSizes(genBg: set<Key>, gtBg: set<Key>, gtFg: set<Key>)
    ensures |genBg - gtBg| == |genBg - (gtBg + gtFg)| + |(gtFg * genBg) - gtBg|
  {
    var extra := genBg - gtBg;
    SplitSize(extra, gtFg);
    assert extra * gtFg == (gtFg * genBg) - gtBg && extra - gtFg == genBg - (gtBg + gtFg);
  }

  lemma CountersAgreeWithMetrics(generated: Manifest, truth: Manifest)
    ensures CountersMatch(CompareCounts(generated, truth), HeaderCounts(generated, truth),
                          ComputeMetrics(generated.threads, truth.threads), Keys(generated.threads, Background),
                          Keys(truth.threads, Background), Keys(truth.threads, Foreground))
  {
    CountersAgree(HeaderCounts(generated, truth), Keys(generated.threads, Background),
                  Keys(truth.threads, Background), Keys(truth.threads, Foreground));
  }

  // ----- the verdict, on the manifests themselves

  /** The two identifications name the same thing: type, prefix and length, missing or `null` alike. */
  predicate SameIdentification(a: Entry, b: Entry) {
    && a.idType == b.idType
    && ((a.prefix.Value? || b.prefix.Value?) ==> a.prefix == b.prefix)
    && ((a.length.Value? || b.length.Value?) ==> a.length == b.length)
  }

  /** The prefixes are there and agree in their first three characters. */
  predicate StartAlike(found: Entry, wanted: Entry) {
    && found.prefix.Value? && wanted.prefix.Value? && found.prefix.value != "" && wanted.prefix.value != ""
    && StartsAlike(found.prefix.value, wanted.prefix.value)
  }

  predicate Lists(threads: seq<Entry>, role: Role, t: Entry) {
    exists i :: 0 <= i < |threads| && threads[i].role == role && SameIdentification(threads[i], t)
  }

  predicate ListsAlike(threads: seq<Entry>, t: Entry) {
    exists i :: 0 <= i < |threads| && threads[i].role == Background && StartAlike(threads[i], t)
  }

  /** A true background entry that is not generated, with or without one that starts alike. */
  predicate MissesEntry(generated: seq<Entry>, truth: seq<Entry>, alike: bool) {
    exists i :: 0 <= i < |truth| && truth[i].role == Background
                && !Lists(generated, Background, truth[i]) && ListsAlike(generated, truth[i]) == alike
  }

  /** A true foreground entry that is generated as background. */
  predicate Violates(generated: seq<Entry>, truth: seq<Entry>) {
    exists i :: 0 <= i < |truth| && truth[i].role == Foreground && Lists(generated, Background, truth[i])
  }

  /** A generated background entry that is not background in the truth. */
  predicate HasExtra(generated: seq<Entry>, truth: seq<Entry>) {
    exists i :: 0 <= i < |generated| && generated[i].role == Background && !Lists(truth, Background, generated[i])
  }

  predicate RolesDiffer(generated: Option<Role>, truth: Option<Role>) {
    truth.Some? && generated.Some? && generated.value != truth.value
  }

  predicate HeadersDisagree(generated: Manifest, truth: Manifest) {
    || generated.application != truth.application
    || generated.identification != truth.identification
    || |generated.rationale| <= 20
    || RolesDiffer(generated.defaultRole, truth.defaultRole)
  }

  predicate DefaultRoleMissing(generated: Manifest, truth: Manifest) {
    truth.defaultRole.Some? && generated.defaultRole.None?
  }

  predicate MustFail(generated: Manifest, truth: Manifest) {
    || HeadersDisagree(generated, truth)
    || MissesEntry(generated.threads, truth.threads, false)
    || Violates(generated.threads, truth.threads)
  }

  predicate MustWarn(generated: Manifest, truth: Manifest) {
    || DefaultRoleMissing(generated, truth)
    || MissesEntry(generated.threads, truth.threads, true)
    || HasExtra(generated.threads, truth.threads)
  }

  lemma SameKeyIff(a: Entry, b: Entry)
    ensures KeyFor(a) == KeyFor(b) <==> SameIdentification(a, b)
  {
  }

  lemma ListsIff(threads: seq<Entry>, role: Role, t: Entry)
    ensures Lists(threads, role, t) <==> KeyFor(t) in Keys(threads, role)
  {
    forall i | 0 <= i < |threads|
      ensures KeyFor(threads[i]) == KeyFor(t) <==> SameIdentification(threads[i], t)
    {
      SameKeyIff(threads[i], t);
    }
    if KeyFor(t) in Keys(threads, role) {
      var u :| u in threads && u.role == role && KeyFor(u) == KeyFor(t);
      var i :| 0 <= i < |threads| && threads[i] == u;
    }
  }

  lemma ListsAlikeIff(threads: seq<Entry>, t: Entry)
    ensures ListsAlike(threads, t) <==> HasPartial(Keys(threads, Background), KeyFor(t))
  {
    forall i | 0 <= i < |threads|
      ensures StartAlike(threads[i], t) <==> PartialMatch(KeyFor(threads[i]), KeyFor(t))
    {
      PartialMatchMeaning(KeyFor(threads[i]), KeyFor(t));
    }
    if ListsAlike(threads, t) {
      var i :| 0 <= i < |threads| && threads[i].role == Background && StartAlike(threads[i], t);
      assert KeyFor(threads[i]) in Keys(threads, Background);
    }
    if HasPartial(Keys(threads, Background), KeyFor(t)) {
      var found :| found in Keys(threads, Background) && PartialMatch(found, KeyFor(t));
      var u :| u in threads && u.role == Background && KeyFor(u) == found;
      var i :| 0 <= i < |threads| && threads[i] == u;
    }
  }

  lemma KeyOfEntry(threads: seq<Entry>, role: Role, key: Key) returns (i: nat)
    requires key in Keys(threads, role)
    ensures i < |threads| && threads[i].role == role && KeyFor(threads[i]) == key
  {
    var u :| u in threads && u.role == role && KeyFor(u) == key;
    i :| 0 <= i < |threads| && threads[i] == u;
  }

  lemma MissesIff(generated: seq<Entry>, truth: seq<Entry>, alike: bool)
    ensures MissesEntry(generated, truth, alike)
       <==> |Missed(Keys(generated, Background), Keys(truth, Background), alike)| > 0
  {
    var missed := Missed(Keys(generated, Background), Keys(truth, Background), alike);
    if MissesEntry(generated, truth, alike) {
      var i :| 0 <= i < |truth| && truth[i].role == Background
               && !Lists(generated, Background, truth[i]) && ListsAlike(generated, truth[i]) == alike;
      ListsIff(generated, Background, truth[i]);
      ListsAlikeIff(generated, truth[i]);
      assert KeyFor(truth[i]) in missed;
    }
    if |missed| > 0 {
      var key :| key in missed;
      var i := KeyOfEntry(truth, Background, key);
      ListsIff(generated, Background, truth[i]);
      ListsAlikeIff(generated, truth[i]);
    }
  }

  lemma ViolatesIff(generated: seq<Entry>, truth: seq<Entry>)
    ensures Violates(generated, truth) <==> |Keys(truth, Foreground) * Keys(generated, Background)| > 0
  {
    var both := Keys(truth, Foreground) * Keys(generated, Background);
    if Violates(generated, truth) {
      var i :| 0 <= i < |truth| && truth[i].role == Foreground && Lists(generated, Background, truth[i]);
      ListsIff(generated, Background, truth[i]);
      assert KeyFor(truth[i]) in both;
    }
    if |both| > 0 {
      var key :| key in both;
      var i := KeyOfEntry(truth, Foreground, key);
      ListsIff(generated, Background, truth[i]);
    }
  }

  lemma ExtraIff(generated: seq<Entry>, truth: seq<Entry>)
    ensures HasExtra(generated, truth) <==> |Keys(generated, Background) - Keys(truth, Background)| > 0
  {
    var extra := Keys(generated, Background) - Keys(truth, Background);
    if HasExtra(generated, truth) {
      var i :| 0 <= i < |generated| && generated[i].role == Background && !Lists(truth, Background, generated[i]);
      ListsIff(truth, Background, generated[i]);
      assert KeyFor(generated[i]) in extra;
    }
    if |extra| > 0 {
      var key :| key in extra;
      var i := KeyOfEntry(generated, Background, key);
      ListsIff(truth, Background, generated[i]);
    }
  }

  predicate Fails(counts: Counts) {
    counts.fails > 0
  }

  predicate Warns(counts: Counts) {
    counts.warnings > 0
  }

  lemma HeaderFailures(generated: Manifest, truth: Manifest)
    ensures Fails(HeaderCounts(generated, truth)) <==> HeadersDisagree(generated, truth)
  {
    CheckFailures(generated.application == truth.application, generated.identification == truth.identification,
                  |generated.rationale| > 20, generated.defaultRole, truth.defaultRole);
  }

  lemma HeaderWarnings(generated: Manifest, truth: Manifest)
    ensures Warns(HeaderCounts(generated, truth)) <==> DefaultRoleMissing(generated, truth)
  {
    CheckFailures(generated.application == truth.application, generated.identification == truth.identification,
                  |generated.rationale| > 20, generated.defaultRole, truth.defaultRole);
  }

  lemma CheckFailures(a: bool, b: bool, c: bool, generated: Option<Role>, truth: Option<Role>)
    ensures Fails(HeaderChecks(a, b, c, generated, truth)) <==>
            !a || !b || !c || RolesDiffer(generated, truth)
    ensures Warns(HeaderChecks(a, b, c, generated, truth)) <==> truth.Some? && generated.None?
  {
    SumOfFour(Check(a), Check(b), Check(c), DefaultRoleCounts(generated, truth));
    CheckFails(a);
    CheckFails(b);
    CheckFails(c);
    DefaultRoleFails(generated, truth);
  }

  lemma CheckFails(ok: bool)
    ensures Fails(Check(ok)) <==> !ok
    ensures !Warns(Check(ok))
  {
  }

  lemma DefaultRoleFails(generated: Option<Role>, truth: Option<Role>)
    ensures Fails(DefaultRoleCounts(generated, truth)) <==> RolesDiffer(generated, truth)
    ensures Warns(DefaultRoleCounts(generated, truth)) <==> truth.Some? && generated.None?
  {
  }

  lemma SumOfFour(x: Counts, y: Counts, z: Counts, w: Counts)
    ensures Fails(x.Plus(y).Plus(z).Plus(w)) <==> Fails(x) || Fails(y) || Fails(z) || Fails(w)
    ensures Warns(x.Plus(y).Plus(z).Plus(w)) <==> Warns(x) || Warns(y) || Warns(z) || Warns(w)
  {
  }

  lemma SetCounters(header: Counts, genBg: set<Key>, gtBg: set<Key>, gtFg: set<Key>)
    ensures var c := CompareSets(header, genBg, gtBg, gtFg);
            && c.fails == header.fails + |Missed(genBg, gtBg, false)| + |gtFg * genBg|
            && c.warnings == header.warnings + |Missed(genBg, gtBg, true)| + |genBg - gtBg|
  {
  }

  /**
   When each verdict is given, on the manifests themselves. FAIL: the members disagree, a
   true background entry is missed without one that starts alike, or a true foreground entry
   is generated as background. With warnings: none of these, but the default role is missing,
   a missed entry has one that starts alike, or there is an extra one. PASS: none at all.
   */
  lemma VerdictIff(generated: Manifest, truth: Manifest)
    ensures VerdictOf(CompareCounts(generated, truth)) == Fail <==> MustFail(generated, truth)
    ensures VerdictOf(CompareCounts(generated, truth)) == PassWithWarnings
       <==> !MustFail(generated, truth) && MustWarn(generated, truth)
    ensures VerdictOf(CompareCounts(generated, truth)) == Pass
       <==> !MustFail(generated, truth) && !MustWarn(generated, truth)
  {
    HeaderFailures(generated, truth);
    HeaderWarnings(generated, truth);
    MissesIff(generated.threads, truth.threads, false);
    MissesIff(generated.threads, truth.threads, true);
    ViolatesIff(generated.threads, truth.threads);
    ExtraIff(generated.threads, truth.threads);
    SetCounters(HeaderCounts(generated, truth), Keys(generated.threads, Background),
                Keys(truth.threads, Background), Keys(truth.threads, Foreground));
  }

  lemma SafetyViolationFails(generated: Manifest, truth: Manifest)
    requires ComputeMetrics(generated.threads, truth.threads).safety > 0
    ensures VerdictOf(CompareCounts(generated, truth)) == Fail
  {
    CountersAgreeWithMetrics(generated, truth);
  }

  /** Of a total `t + m`, the share of `t` is 1 exactly when nothing else is in it. */
  lemma WholeShare(f: real, t: real, m: real)
    requires t >= 0.0 && m >= 0.0 && t + m > 0.0 && f * (t + m) == t
    ensures f == 1.0 <==> m == 0.0
  {
    if m == 0.0 {
      CancelFactor(f, 1.0, t);
    }
  }

  /** F1 is 1 exactly when nothing was missed or wrongly generated. */
  lemma PerfectCounts(tp: nat, fp: nat, fn: nat)
    ensures HarmonicMean(Ratio(tp, fp), Ratio(tp, fn)) == 1.0 <==> fp == 0 && fn == 0
  {
    F1OfCounts(tp, fp, fn);
    OnlyHits(HarmonicMean(Ratio(tp, fp), Ratio(tp, fn)), 2 * tp, fp + fn);
  }

  lemma OnlyHits(f: real, hits: nat, misses: nat)
    requires f * (hits + misses) as real == hits as real && (hits + misses == 0 ==> f == 1.0)
    ensures f == 1.0 <==> misses == 0
  {
    assert (hits + misses) as real == hits as real + misses as real;
    if hits + misses > 0 {
      WholeShare(f, hits as real, misses as real);
    }
  }

  /** F1 is 1 exactly when the background keys are the same and none is foreground in the truth. */
  lemma PerfectF1(genBg: set<Key>, gtBg: set<Key>, gtFg: set<Key>)
    ensures MetricsOf(genBg, gtBg, gtFg).f1 == 1.0 <==> genBg == gtBg && genBg !! gtFg
    ensures MetricsOf(genBg, gtBg, gtFg).recall == 1.0 <==> gtBg <= genBg
  {
    var m := MetricsOf(genBg, gtBg, gtFg);
    PerfectCounts(m.tp, m.safety + m.extra, m.fn);
    EmptySizes(gtBg, genBg);
    EmptySizes(gtFg, genBg);
    EmptySizes(genBg, gtBg + gtFg);
    SameBackground(genBg, gtBg, gtFg);
  }

  lemma SameBackground(genBg: set<Key>, gtBg: set<Key>, gtFg: set<Key>)
    ensures gtBg <= genBg <= gtBg + gtFg && gtFg !! genBg <==> genBg == gtBg && genBg !! gtFg
  {
    if gtBg <= genBg <= gtBg + gtFg && gtFg !! genBg {
      assert forall key :: key in genBg ==> key in gtBg;
    }
  }

  /** A manifest scores 1 against itself unless it lists a key under both roles. */
  lemma SelfComparison(threads: seq<Entry>)
    ensures ComputeMetrics(threads, threads).f1 == 1.0 <==> Keys(threads, Background) !! Keys(threads, Foreground)
    ensures ComputeMetrics(threads, threads).recall == 1.0
  {
    PerfectF1(Keys(threads, Background), Keys(threads, Background), Keys(threads, Foreground));
  }

  lemma EmptySizes<T>(a: set<T>, b: set<T>)
    ensures |a - b| == 0 <==> a <= b
    ensures |a * b| == 0 <==> a !! b
  {
    if |a - b| == 0 {
      forall x | x in a
        ensures x in b
      {
        assert x !in a - b;
      }
    }
    if a <= b {
      assert a - b == {};
    }
  }

  lemma NothingMissed(genBg: set<Key>, gtBg: set<Key>)
    ensures |Missed(genBg, gtBg, false)| + |Missed(genBg, gtBg, true)| == 0 <==> gtBg <= genBg
  {
    assert gtBg - genBg == Missed(genBg, gtBg, true) + Missed(genBg, gtBg, false);
    EmptySizes(gtBg, genBg);
  }

  lemma NothingExtra(genBg: set<Key>, gtBg: set<Key>, gtFg: set<Key>)
    ensures |gtFg * genBg| + |genBg - gtBg| == 0 <==> genBg <= gtBg && genBg !! gtFg
  {
    EmptySizes(gtFg, genBg);
    EmptySizes(genBg, gtBg);
  }

  /** No failure and no warning beyond the headers. */
  lemma CleanSets(header: Counts, genBg: set<Key>, gtBg: set<Key>, gtFg: set<Key>)
    ensures VerdictOf(CompareSets(header, genBg, gtBg, gtFg)) == Pass
       <==> IsClean(header) && genBg == gtBg && genBg !! gtFg
  {
    NothingMissed(genBg, gtBg);
    NothingExtra(genBg, gtBg, gtFg);
  }

  /** The verdict on the sets is clean exactly when F1 is 1 under matching headers. */
  lemma CleanSetsIffPerfect(header: Counts, genBg: set<Key>, gtBg: set<Key>, gtFg: set<Key>)
    ensures VerdictOf(CompareSets(header, genBg, gtBg, gtFg)) == Pass
       <==> IsClean(header) && MetricsOf(genBg, gtBg, gtFg).f1 == 1.0
  {
    CleanSets(header, genBg, gtBg, gtFg);
    PerfectF1(genBg, gtBg, gtFg);
  }

  /** A clean verdict is exactly F1 = 1 and agreeing headers. */
  lemma CleanPassIffPerfect(generated: Manifest, truth: Manifest)
    ensures VerdictOf(CompareCounts(generated, truth)) == Pass
       <==> HeadersAgree(generated, truth) && ComputeMetrics(generated.threads, truth.threads).f1 == 1.0
  {
    CleanHeaders(generated, truth);
    CleanSetsIffPerfect(HeaderCounts(generated, truth), Keys(generated.threads, Background),
                        Keys(truth.threads, Background), Keys(truth.threads, Foreground));
  }
}
