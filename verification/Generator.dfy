/**
 Stage 3: from a manifest to the classification code of a scheduler.

 The methods follow the generator's loops; each is proved equal to a function, and the
 lemmas say what the emitted code computes. Generation stops with an error on a `null`
 comm_prefix: the default of the length lookup, `len(prefix)`, is evaluated even when a
 length is given.
 */
module Generator {
  import opened Wrappers
  import opened Comm
  import opened CSource
  import opened Manifest

  // ----- extracting prefixes

  type PrefixKey = (string, Option<int>)

  datatype Error = NullPrefix

  function KeyOf(entry: Entry): Result<PrefixKey, Error> {
    if entry.prefix.Null? then Failure(NullPrefix)
    else
      var prefix := if entry.prefix.Absent? then "" else entry.prefix.value;
      var length := match entry.length
        case Absent => Some(|prefix|)
        case Null => None
        case Value(n) => Some(n);
      Success((prefix, length))
  }

  /** The keys of a role in order of first occurrence, each once. */
  function Extract(threads: seq<Entry>, role: Role): Result<seq<PrefixKey>, Error> {
    if threads == [] then Success([])
    else
      var last, before := threads[|threads| - 1], Extract(threads[..|threads| - 1], role);
      if before.Failure? || last.role != role then before
      else
        match KeyOf(last)
        case Failure(e) => Failure(e)
        case Success(key) => Success(if key in before.value then before.value else before.value + [key])
  }

  method ExtractPrefixes(threads: seq<Entry>, role: Role) returns (r: Result<seq<PrefixKey>, Error>)
    ensures r == Extract(threads, role)
  {
    var seen: set<PrefixKey> := {};
    var prefixes: seq<PrefixKey> := [];
    for i := 0 to |threads|
      invariant Extract(threads[..i], role) == Success(prefixes)
      invariant forall key :: key in seen <==> key in prefixes
    {
      var t := threads[i];
      assert threads[..i + 1][..i] == threads[..i];
      if t.role != role {
        continue;
      }
      var key := KeyOf(t);
      if key.Failure? {
        FailureIsFinal(threads, role, i + 1);
        return Failure(key.error);
      }
      if key.value !in seen {
        seen := seen + {key.value};
        prefixes := prefixes + [key.value];
      }
    }
    assert threads[..|threads|] == threads;
    return Success(prefixes);
  }

  lemma {:induction false} FailureIsFinal(threads: seq<Entry>, role: Role, n: nat)
    requires n <= |threads| && Extract(threads[..n], role).Failure?
    ensures Extract(threads, role) == Extract(threads[..n], role)
  {
    if n == |threads| {
      assert threads[..n] == threads;
    } else {
      assert threads[..|threads| - 1][..n] == threads[..n];
      FailureIsFinal(threads[..|threads| - 1], role, n);
    }
  }

  predicate Distinct<T(==)>(s: seq<T>) {
    forall i, j :: 0 <= i < j < |s| ==> s[i] != s[j]
  }

  predicate HasNullPrefix(threads: seq<Entry>, role: Role) {
    exists i :: 0 <= i < |threads| && threads[i].role == role && threads[i].prefix.Null?
  }

  predicate IsKey(threads: seq<Entry>, role: Role, key: PrefixKey) {
    exists i :: 0 <= i < |threads| && threads[i].role == role && KeyOf(threads[i]) == Success(key)
  }

  /** Extraction fails exactly on a `null` prefix; otherwise it lists exactly the keys, once. */
  lemma {:induction false} ExtractMeaning(threads: seq<Entry>, role: Role)
    ensures Extract(threads, role).Failure? <==> HasNullPrefix(threads, role)
    ensures Extract(threads, role).Success? ==>
              var keys := Extract(threads, role).value;
              Distinct(keys) && forall key :: key in keys <==> IsKey(threads, role, key)
  {
    if threads != [] {
      var n := |threads| - 1;
      var init := threads[..n];
      ExtractMeaning(init, role);
      assert forall i :: 0 <= i < n ==> init[i] == threads[i];
      assert HasNullPrefix(threads, role) <==>
        HasNullPrefix(init, role) || (threads[n].role == role && threads[n].prefix.Null?);
      forall key
        ensures IsKey(threads, role, key) <==>
                IsKey(init, role, key) || (threads[n].role == role && KeyOf(threads[n]) == Success(key))
      {
        if IsKey(init, role, key) {
          var i :| 0 <= i < |init| && init[i].role == role && KeyOf(init[i]) == Success(key);
          assert threads[i].role == role;
        }
      }
    }
  }

  /** A longer manifest only adds keys at the end, so keys are in order of first occurrence. */
  lemma {:induction false} ExtractGrows(threads: seq<Entry>, role: Role, n: nat)
    requires n <= |threads| && Extract(threads, role).Success?
    ensures Extract(threads[..n], role).Success?
    ensures Extract(threads[..n], role).value <= Extract(threads, role).value
  {
    if n == |threads| {
      assert threads[..n] == threads;
    } else {
      assert threads[..|threads| - 1][..n] == threads[..n];
      ExtractGrows(threads[..|threads| - 1], role, n);
    }
  }

  // ----- emitting code

  /** `if (check) return result;`, or `result = ...` in an else-if chain. */
  datatype Arm = Arm(check: string, result: Class)

  /**
   The body of a generated classification function: the arms in order, the result when no
   arm applies, and the result when the name cannot be read.
   */
  datatype Source = Source(arms: seq<Arm>, otherwise: Class, onFault: Class)

  /** Which template: patterns A and B share the boolean test, pattern C has three classes. */
  datatype Pattern = SimpleDualDsq | SelectivePreemption | AsymmetricTaskStorage

  method GenerateCommCheck(prefix: string, length: Option<int>, indent: string) returns (check: string)
    ensures check == CheckText(Slice(prefix, length), indent)
  {
    var chars := Slice(prefix, length);
    var parts: seq<string> := [];
    for i := 0 to |chars|
      invariant parts == PartTexts(PrefixTests(chars))[..i]
    {
      parts := parts + ["comm[" + Decimal(i) + "] == '" + [chars[i]] + "'"];
    }
    assert parts == PartTexts(PrefixTests(chars));
    check := Join(parts, Separator(indent));
  }

  /** The bytes a key compares. */
  function PatternOf(key: PrefixKey): string {
    Slice(key.0, key.1)
  }

  function ArmOf(key: PrefixKey, indent: string, result: Class): Arm {
    Arm(CheckText(PatternOf(key), indent), result)
  }

  function ArmsOf(keys: seq<PrefixKey>, indent: string, result: Class): seq<Arm> {
    seq(|keys|, i requires 0 <= i < |keys| => ArmOf(keys[i], indent, result))
  }

  method GenerateArms(keys: seq<PrefixKey>, indent: string, result: Class) returns (arms: seq<Arm>)
    ensures arms == ArmsOf(keys, indent, result)
  {
    arms := [];
    for i := 0 to |keys|
      invariant arms == ArmsOf(keys, indent, result)[..i]
    {
      var check := GenerateCommCheck(keys[i].0, keys[i].1, indent);
      arms := arms + [Arm(check, result)];
    }
  }

  /** Both role's prefixes are extracted for every template. */
  function Generate(threads: seq<Entry>, pattern: Pattern): Result<Source, Error> {
    match (Extract(threads, Background), Extract(threads, Foreground))
    case (Success(bg), Success(fg)) =>
      Success(
        if pattern.AsymmetricTaskStorage? then
          Source(ArmsOf(fg, "\t\t", Kicker) + ArmsOf(bg, "\t\t", Hog), Normal, Normal)
        else
          Source(ArmsOf(bg, "\t", Hog), Kicker, Kicker))
    case (Failure(e), _) => Failure(e)
    case (_, Failure(e)) => Failure(e)
  }

  method GenerateScheduler(threads: seq<Entry>, pattern: Pattern) returns (r: Result<Source, Error>)
    ensures r == Generate(threads, pattern)
  {
    var bg := ExtractPrefixes(threads, Background);
    if bg.Failure? {
      return Failure(bg.error);
    }
    var fg := ExtractPrefixes(threads, Foreground);
    if fg.Failure? {
      return Failure(fg.error);
    }
    if pattern.AsymmetricTaskStorage? {
      var fgArms := GenerateArms(fg.value, "\t\t", Kicker);
      var bgArms := GenerateArms(bg.value, "\t\t", Hog);
      return Success(Source(fgArms + bgArms, Normal, Normal));
    } else {
      var bgArms := GenerateArms(bg.value, "\t", Hog);
      return Success(Source(bgArms, Kicker, Kicker));
    }
  }

  // ----- compiling the emitted code

  /** The chain a list of arms stands for, if its checks are C. */
  function CompileArms(arms: seq<Arm>): (r: Option<seq<Branch>>)
    ensures r.Some? ==> Executable(r.value)
  {
    if arms == [] then Some([])
    else
      var tests :- ParseCheck(arms[0].check);
      var rest :- CompileArms(arms[1..]);
      Some([Branch(tests, arms[0].result)] + rest)
  }

  function Compile(source: Source): (r: Option<Program>)
    ensures r.Some? ==> Executable(r.value.branches)
  {
    var branches :- CompileArms(source.arms);
    Some(Program(branches, source.otherwise, source.onFault))
  }

  // ----- what the emitted code means

  /** The bytes an entry compares. */
  function Truncated(entry: Entry): string {
    match KeyOf(entry)
    case Success(key) => PatternOf(key)
    case Failure(_) => ""
  }

  /**
   The bytes compared are the first `length` of the prefix, all of it without a length or
   with a longer one, and none without a prefix.
   */
  lemma TruncatedMeaning(entry: Entry, k: nat)
    ensures entry.prefix.Absent? ==> Truncated(entry) == ""
    ensures entry.prefix.Value? ==>
              var p, bytes := entry.prefix.value, Truncated(entry);
              && bytes <= p
              && (!entry.length.Value? ==> bytes == p)
              && (entry.length == Value(k) ==> |bytes| == if k < |p| then k else |p|)
  {
    if entry.prefix.Value? {
      assert entry.prefix.value[..|entry.prefix.value|] == entry.prefix.value;
    }
  }

  predicate Matches(threads: seq<Entry>, role: Role, name: string) {
    exists i :: 0 <= i < |threads| && threads[i].role == role && Truncated(threads[i]) <= name
  }

  predicate WellFormed(threads: seq<Entry>, role: Role) {
    forall i :: 0 <= i < |threads| && threads[i].role == role ==>
      !threads[i].prefix.Null? && GoodPattern(Truncated(threads[i]))
  }

  /** There is something to compare, and it survives being quoted. */
  predicate GoodPattern(pattern: string) {
    pattern != "" && AllPlain(pattern)
  }

  predicate GoodKeys(keys: seq<PrefixKey>) {
    forall i :: 0 <= i < |keys| ==>
      GoodPattern(PatternOf(keys[i]))
  }

  predicate KeyMatches(keys: seq<PrefixKey>, name: string) {
    exists i :: 0 <= i < |keys| && PatternOf(keys[i]) <= name
  }

  lemma EntryHasKey(threads: seq<Entry>, role: Role, i: nat) returns (j: nat)
    requires Extract(threads, role).Success?
    requires i < |threads| && threads[i].role == role
    ensures !threads[i].prefix.Null?
    ensures var keys := Extract(threads, role).value;
            j < |keys| && PatternOf(keys[j]) == Truncated(threads[i])
  {
    ExtractMeaning(threads, role);
    var keys, key := Extract(threads, role).value, KeyOf(threads[i]).value;
    assert IsKey(threads, role, key);
    j :| 0 <= j < |keys| && keys[j] == key;
  }

  lemma KeyHasEntry(threads: seq<Entry>, role: Role, j: nat) returns (i: nat)
    requires Extract(threads, role).Success? && j < |Extract(threads, role).value|
    ensures i < |threads| && threads[i].role == role && !threads[i].prefix.Null?
    ensures var key := Extract(threads, role).value[j];
            PatternOf(key) == Truncated(threads[i])
  {
    ExtractMeaning(threads, role);
    var key := Extract(threads, role).value[j];
    assert IsKey(threads, role, key);
    i :| 0 <= i < |threads| && threads[i].role == role && KeyOf(threads[i]) == Success(key);
  }

  lemma ExtractedKeysAreGood(threads: seq<Entry>, role: Role)
    requires Extract(threads, role).Success?
    ensures GoodKeys(Extract(threads, role).value) <==> WellFormed(threads, role)
  {
    var keys := Extract(threads, role).value;
    if WellFormed(threads, role) {
      forall j | 0 <= j < |keys|
        ensures GoodPattern(PatternOf(keys[j]))
      {
        var i := KeyHasEntry(threads, role, j);
      }
    }
    if GoodKeys(keys) {
      forall i | 0 <= i < |threads| && threads[i].role == role
        ensures !threads[i].prefix.Null? && GoodPattern(Truncated(threads[i]))
      {
        var j := EntryHasKey(threads, role, i);
      }
    }
  }

  lemma ExtractedKeysMatch(threads: seq<Entry>, role: Role, name: string)
    requires Extract(threads, role).Success?
    ensures KeyMatches(Extract(threads, role).value, name) <==> Matches(threads, role, name)
  {
    var keys := Extract(threads, role).value;
    if KeyMatches(keys, name) {
      var j :| 0 <= j < |keys| && PatternOf(keys[j]) <= name;
      var i := KeyHasEntry(threads, role, j);
    }
    if Matches(threads, role, name) {
      var i :| 0 <= i < |threads| && threads[i].role == role && Truncated(threads[i]) <= name;
      var j := EntryHasKey(threads, role, i);
    }
  }

  function BranchesOf(keys: seq<PrefixKey>, result: Class): seq<Branch> {
    seq(|keys|, i requires 0 <= i < |keys| => Branch(PrefixTests(PatternOf(keys[i])), result))
  }

  /** A branch in front of what the rest compiles to. */
  function Behind(pattern: string, result: Class, rest: Option<seq<Branch>>): Option<seq<Branch>> {
    if GoodPattern(pattern) && rest.Some? then Some([Branch(PrefixTests(pattern), result)] + rest.value)
    else None
  }

  function AllBehind(keys: seq<PrefixKey>, result: Class, rest: Option<seq<Branch>>): Option<seq<Branch>> {
    if GoodKeys(keys) && rest.Some? then Some(BranchesOf(keys, result) + rest.value) else None
  }

  lemma BranchesOfStep(keys: seq<PrefixKey>, result: Class, rest: seq<Branch>)
    requires keys != []
    ensures BranchesOf(keys, result) + rest
         == [Branch(PrefixTests(PatternOf(keys[0])), result)] + (BranchesOf(keys[1..], result) + rest)
  {
    var first := [Branch(PrefixTests(PatternOf(keys[0])), result)];
    assert BranchesOf(keys, result) == first + BranchesOf(keys[1..], result);
  }

  lemma AllBehindStep(keys: seq<PrefixKey>, result: Class, rest: Option<seq<Branch>>)
    ensures keys == [] ==> AllBehind(keys, result, rest) == rest
    ensures keys != [] ==>
      AllBehind(keys, result, rest) == Behind(PatternOf(keys[0]), result, AllBehind(keys[1..], result, rest))
  {
    if keys == [] {
      assert rest.Some? ==> BranchesOf(keys, result) + rest.value == rest.value;
    } else {
      GoodKeysStep(keys);
      if rest.Some? {
        BranchesOfStep(keys, result, rest.value);
      }
    }
  }

  lemma ArmCompiles(key: PrefixKey, indent: string, result: Class, rest: seq<Arm>)
    requires Blank(indent)
    ensures CompileArms([ArmOf(key, indent, result)] + rest)
         == Behind(PatternOf(key), result, CompileArms(rest))
  {
    CheckTextRoundTrip(PatternOf(key), indent);
    assert ([ArmOf(key, indent, result)] + rest)[1..] == rest;
  }

  lemma SplitArms(keys: seq<PrefixKey>, indent: string, result: Class, rest: seq<Arm>)
    ensures keys == [] ==> ArmsOf(keys, indent, result) + rest == rest
    ensures keys != [] ==>
      ArmsOf(keys, indent, result) + rest
      == [ArmOf(keys[0], indent, result)] + (ArmsOf(keys[1..], indent, result) + rest)
  {
  }

  /** The block of arms of one role, followed by anything, compiles to prefix comparisons. */
  lemma {:induction false} BlockCompiles(keys: seq<PrefixKey>, indent: string, result: Class, rest: seq<Arm>)
    requires Blank(indent)
    ensures CompileArms(ArmsOf(keys, indent, result) + rest) == AllBehind(keys, result, CompileArms(rest))
  {
    SplitArms(keys, indent, result, rest);
    AllBehindStep(keys, result, CompileArms(rest));
    if keys != [] {
      BlockCompiles(keys[1..], indent, result, rest);
      ArmCompiles(keys[0], indent, result, ArmsOf(keys[1..], indent, result) + rest);
    }
  }

  lemma GoodKeysStep(keys: seq<PrefixKey>)
    requires keys != []
    ensures GoodKeys(keys) <==>
            GoodPattern(PatternOf(keys[0])) && GoodKeys(keys[1..])
  {
    assert forall i :: 0 <= i < |keys[1..]| ==> keys[1..][i] == keys[i + 1];
    assert forall i :: 1 <= i < |keys| ==> keys[i] == keys[1..][i - 1];
  }

  lemma KeyMatchesStep(keys: seq<PrefixKey>, name: string)
    requires keys != []
    ensures KeyMatches(keys, name) <==> PatternOf(keys[0]) <= name || KeyMatches(keys[1..], name)
  {
    assert forall i :: 0 <= i < |keys[1..]| ==> keys[1..][i] == keys[i + 1];
    assert forall i :: 1 <= i < |keys| ==> keys[i] == keys[1..][i - 1];
  }

  lemma {:induction false} BlockMeaning(
      keys: seq<PrefixKey>, result: Class, rest: seq<Branch>, otherwise: Class, name: Name)
    requires GoodKeys(keys) && Executable(rest)
    ensures Executable(BranchesOf(keys, result) + rest)
    ensures EvalBranches(BranchesOf(keys, result) + rest, otherwise, Buffer(name))
         == if KeyMatches(keys, name) then Some(result) else EvalBranches(rest, otherwise, Buffer(name))
  {
    if keys == [] {
      assert BranchesOf(keys, result) + rest == rest;
    } else {
      var pattern, tail := PatternOf(keys[0]), BranchesOf(keys[1..], result) + rest;
      GoodKeysStep(keys);
      BlockMeaning(keys[1..], result, rest, otherwise, name);
      BranchMeaning(pattern, result, tail, otherwise, name);
      KeyMatchesStep(keys, name);
      BranchesOfStep(keys, result, rest);
    }
  }

  /** A manifest whose generated scheduler exists and compiles. */
  predicate Usable(threads: seq<Entry>, pattern: Pattern) {
    Generate(threads, pattern).Success? && Compile(Generate(threads, pattern).value).Some?
  }

  /** The classification function of the generated scheduler. */
  function Generated(threads: seq<Entry>, pattern: Pattern): (program: Program)
    requires Usable(threads, pattern)
    ensures Executable(program.branches)
  {
    Compile(Generate(threads, pattern).value).value
  }

  lemma GenerateCompiles(threads: seq<Entry>, pattern: Pattern)
    requires Generate(threads, pattern).Success?
    ensures var bg := Extract(threads, Background).value;
            var fg := Extract(threads, Foreground).value;
            Compile(Generate(threads, pattern).value)
            == if !GoodKeys(bg) || (pattern.AsymmetricTaskStorage? && !GoodKeys(fg)) then None
            else if pattern.AsymmetricTaskStorage? then
              Some(Program(BranchesOf(fg, Kicker) + BranchesOf(bg, Hog), Normal, Normal))
            else Some(Program(BranchesOf(bg, Hog), Kicker, Kicker))
  {
    var bg, fg := Extract(threads, Background).value, Extract(threads, Foreground).value;
    var indent := if pattern.AsymmetricTaskStorage? then "\t\t" else "\t";
    BlockCompiles(bg, indent, Hog, []);
    assert ArmsOf(bg, indent, Hog) + [] == ArmsOf(bg, indent, Hog);
    assert BranchesOf(bg, Hog) + [] == BranchesOf(bg, Hog);
    if pattern.AsymmetricTaskStorage? {
      BlockCompiles(fg, indent, Kicker, ArmsOf(bg, indent, Hog));
    }
  }

  /**
   Generation succeeds exactly without `null` prefixes; the result is C exactly when what
   is compared is non-empty and plain, for pattern C in both roles.
   */
  lemma UsableManifests(threads: seq<Entry>, pattern: Pattern)
    ensures Generate(threads, pattern).Success?
       <==> !HasNullPrefix(threads, Background) && !HasNullPrefix(threads, Foreground)
    ensures Usable(threads, pattern)
       <==> !HasNullPrefix(threads, Foreground) && WellFormed(threads, Background)
            && (pattern.AsymmetricTaskStorage? ==> WellFormed(threads, Foreground))
  {
    ExtractMeaning(threads, Background);
    ExtractMeaning(threads, Foreground);
    if Generate(threads, pattern).Success? {
      GenerateCompiles(threads, pattern);
      ExtractedKeysAreGood(threads, Background);
      ExtractedKeysAreGood(threads, Foreground);
    }
  }

  /** The class the manifest asks for, by template. */
  function Intended(threads: seq<Entry>, pattern: Pattern, read: CommRead): Class {
    match read
    case Fault => if pattern.AsymmetricTaskStorage? then Normal else Kicker
    case Read(name) =>
      if pattern.AsymmetricTaskStorage? then
        if Matches(threads, Foreground, name) then Kicker
        else if Matches(threads, Background, name) then Hog
        else Normal
      else if Matches(threads, Background, name) then Hog
      else Kicker
  }

  /**
   The generator preserves meaning: the code it emits never misbehaves on any name and
   computes the class the manifest asks for.
   */
  lemma GeneratedMeaning(threads: seq<Entry>, pattern: Pattern, read: CommRead)
    requires Usable(threads, pattern)
    ensures Classify(Generated(threads, pattern), read) == Some(Intended(threads, pattern, read))
  {
    GenerateCompiles(threads, pattern);
    if read.Read? {
      var name := read.name;
      ExtractedKeysMatch(threads, Background, name);
      ExtractedKeysMatch(threads, Foreground, name);
      var bg, fg := Extract(threads, Background).value, Extract(threads, Foreground).value;
      var otherwise := if pattern.AsymmetricTaskStorage? then Normal else Kicker;
      BlockMeaning(bg, Hog, [], otherwise, name);
      assert BranchesOf(bg, Hog) + [] == BranchesOf(bg, Hog);
      if pattern.AsymmetricTaskStorage? {
        BlockMeaning(fg, Kicker, BranchesOf(bg, Hog), otherwise, name);
      }
    }
  }

  // ----- pattern C against patterns A and B

  predicate Comparable(a: string, b: string) {
    a <= b || b <= a
  }

  /** A foreground and a background entry that some name matches both of. */
  predicate Overlap(f: Entry, b: Entry) {
    f.role == Foreground && b.role == Background
    && Comparable(Truncated(f), Truncated(b))
    && |Truncated(f)| < COMM_LEN && |Truncated(b)| < COMM_LEN
  }

  predicate Overlapping(threads: seq<Entry>) {
    exists i, j :: 0 <= i < |threads| && 0 <= j < |threads| && Overlap(threads[i], threads[j])
  }

  /** The two disagree about background exactly on the names matching both roles. */
  lemma PatternsDifferOnDoubleMatches(threads: seq<Entry>, name: Name)
    ensures (Intended(threads, AsymmetricTaskStorage, Read(name)) == Hog)
         != (Intended(threads, SelectivePreemption, Read(name)) == Hog)
       <==> Matches(threads, Foreground, name) && Matches(threads, Background, name)
  {
  }

  ghost predicate SameBackgroundSet(threads: seq<Entry>) {
    forall name: Name ::
      (Intended(threads, AsymmetricTaskStorage, Read(name)) == Hog)
      <==> (Intended(threads, SelectivePreemption, Read(name)) == Hog)
  }

  lemma OverlapIsMatchedTwice(threads: seq<Entry>, i: nat, j: nat) returns (name: Name)
    requires WellFormed(threads, Foreground) && WellFormed(threads, Background)
    requires i < |threads| && j < |threads| && Overlap(threads[i], threads[j])
    ensures Matches(threads, Foreground, name) && Matches(threads, Background, name)
  {
    var f, b := Truncated(threads[i]), Truncated(threads[j]);
    assert GoodPattern(f) && GoodPattern(b);
    name := if f <= b then b else f;
  }

  lemma MatchedTwiceIsOverlap(threads: seq<Entry>, name: Name)
    requires Matches(threads, Foreground, name) && Matches(threads, Background, name)
    ensures Overlapping(threads)
  {
    var i :| 0 <= i < |threads| && threads[i].role == Foreground && Truncated(threads[i]) <= name;
    var j :| 0 <= j < |threads| && threads[j].role == Background && Truncated(threads[j]) <= name;
    PrefixesOfOneNameCompare(Truncated(threads[i]), Truncated(threads[j]), name);
    assert Overlap(threads[i], threads[j]);
  }

  /**
   Pattern C's TASK_CPU_HOG set is the background set of patterns A and B if and only if no
   foreground and background entry overlap.
   */
  lemma PatternsAgreeIffNoOverlap(threads: seq<Entry>)
    requires WellFormed(threads, Foreground) && WellFormed(threads, Background)
    ensures SameBackgroundSet(threads) <==> !Overlapping(threads)
  {
    if Overlapping(threads) {
      var i, j :| 0 <= i < |threads| && 0 <= j < |threads| && Overlap(threads[i], threads[j]);
      var name := OverlapIsMatchedTwice(threads, i, j);
      PatternsDifferOnDoubleMatches(threads, name);
    }
    if !SameBackgroundSet(threads) {
      var name: Name :| (Intended(threads, AsymmetricTaskStorage, Read(name)) == Hog)
                        != (Intended(threads, SelectivePreemption, Read(name)) == Hog);
      PatternsDifferOnDoubleMatches(threads, name);
      MatchedTwiceIsOverlap(threads, name);
    }
  }

  lemma PrefixesOfOneNameCompare(a: string, b: string, name: string)
    requires a <= name && b <= name
    ensures Comparable(a, b)
  {
    assert a == name[..|a|] && b == name[..|b|];
    if |a| <= |b| {
      assert b[..|a|] == a;
    } else {
      assert a[..|b|] == b;
    }
  }
}
