/**
 The name of a kernel task and the C fragment the schedulers use to look at it.

 A task's `comm` is at most 15 bytes and a NUL. `bpf_probe_read_kernel_str` copies it
 into an uninitialised 16-byte stack buffer, so the cells after the NUL hold
 indeterminate values. The classifiers are conjunctions of byte comparisons; `&&`
 evaluates left to right and stops at the first false operand (section 6.5.13 of
 ISO/IEC 9899:2011). Reading past the buffer, or reading an indeterminate cell, makes
 the evaluation `Undefined`.
 */
module Comm {
  import opened Wrappers

  const COMM_LEN: nat := 16
  const NUL: char := '\0'

  predicate IsName(s: string) {
    |s| < COMM_LEN && NUL !in s
  }

  type Name = s: string | IsName(s) witness ""

  /** The outcome of `bpf_probe_read_kernel_str`: a negative return, or the name. */
  datatype CommRead = Fault | Read(name: Name)

  /**
   What a scheduler thinks of a task. `Kicker` is TASK_NGINX / TASK_FOREGROUND and, in the
   schedulers with a boolean test, every task that is not background; `Hog` is a background
   task; `Normal` is TASK_NORMAL.
   */
  datatype Class = Kicker | Hog | Normal

  datatype Cell = Known(ch: char) | Indeterminate

  function Buffer(name: Name): seq<Cell> {
    seq(COMM_LEN, i requires 0 <= i =>
      if i < |name| then Known(name[i])
      else if i == |name| then Known(NUL)
      else Indeterminate)
  }

  /** The C expression `comm[index] == 'ch'`. */
  datatype Test = Test(index: nat, ch: char)

  datatype Outcome = Undefined | Defined(holds: bool)

  function EvalTest(test: Test, buffer: seq<Cell>): Outcome {
    if test.index >= |buffer| || buffer[test.index].Indeterminate? then Undefined
    else Defined(buffer[test.index].ch == test.ch)
  }

  /** The value of `t0 && t1 && ...`; the empty conjunction is not a C expression. */
  function EvalAnd(tests: seq<Test>, buffer: seq<Cell>): Outcome
    requires tests != []
  {
    var first := EvalTest(tests[0], buffer);
    if |tests| == 1 || first != Defined(true) then first else EvalAnd(tests[1..], buffer)
  }

  /** `if (tests) return result;` */
  datatype Branch = Branch(tests: seq<Test>, result: Class)

  predicate Executable(branches: seq<Branch>) {
    forall i :: 0 <= i < |branches| ==> branches[i].tests != []
  }

  /** An if-chain; `None` stands for undefined behaviour. */
  function EvalBranches(branches: seq<Branch>, otherwise: Class, buffer: seq<Cell>): Option<Class>
    requires Executable(branches)
  {
    if branches == [] then Some(otherwise)
    else
      match EvalAnd(branches[0].tests, buffer)
      case Undefined => None
      case Defined(true) => Some(branches[0].result)
      case Defined(false) => EvalBranches(branches[1..], otherwise, buffer)
  }

  /** A classification function: its chain, and its results without a match and on a fault. */
  datatype Program = Program(branches: seq<Branch>, otherwise: Class, onFault: Class)

  function Classify(program: Program, read: CommRead): Option<Class>
    requires Executable(program.branches)
  {
    match read
    case Fault => Some(program.onFault)
    case Read(name) => EvalBranches(program.branches, program.otherwise, Buffer(name))
  }

  /** `comm[0] == p[0] && comm[1] == p[1] && ...` */
  function PrefixTests(p: string): seq<Test> {
    seq(|p|, i requires 0 <= i < |p| => Test(i, p[i]))
  }

  /** What the comparison chain of an arbitrary pattern does on a name. */
  function ChainOutcome(p: string, name: Name): Outcome {
    if name + [NUL] < p then Undefined else Defined(p <= name + [NUL])
  }

  lemma {:induction false} SuffixOfTestsMeaning(p: string, name: Name, k: nat)
    requires k < |p| && k <= |name| + 1 && p[..k] == (name + [NUL])[..k]
    ensures EvalAnd(PrefixTests(p)[k..], Buffer(name)) == ChainOutcome(p, name)
    decreases |p| - k
  {
    var tests, text := PrefixTests(p)[k..], name + [NUL];
    assert tests[0] == Test(k, p[k]);
    if k < |text| && text[k] == p[k] {
      assert p[..k + 1] == text[..k + 1] by {
        assert p[..k + 1] == p[..k] + [p[k]] && text[..k + 1] == text[..k] + [text[k]];
      }
      if k + 1 == |p| {
        assert p == p[..k + 1];
      } else {
        assert tests[1..] == PrefixTests(p)[k + 1..];
        SuffixOfTestsMeaning(p, name, k + 1);
      }
    } else if k == |text| {
      assert p[..k] == text;
    }
  }

  /**
   The exact value of a chain, for every pattern and name: it is undefined exactly when
   the pattern goes on after matching the name and its NUL, and otherwise it is the
   prefix test.
   */
  lemma ChainMeaning(p: string, name: Name)
    requires p != []
    ensures EvalAnd(PrefixTests(p), Buffer(name)) == ChainOutcome(p, name)
  {
    assert PrefixTests(p)[0..] == PrefixTests(p);
    SuffixOfTestsMeaning(p, name, 0);
  }

  /**
   A NUL-free pattern is always safe, whatever its length: evaluation never leaves the
   buffer and never reads a cell after the NUL, and it decides whether the name starts
   with the pattern.
   */
  lemma PrefixChainMeaning(p: string, name: Name)
    requires p != [] && NUL !in p
    ensures EvalAnd(PrefixTests(p), Buffer(name)) == Defined(p <= name)
  {
    ChainMeaning(p, name);
    var text := name + [NUL];
    assert text[|name|] == NUL;
    assert p <= text ==> |p| <= |name|;
    assert |p| <= |name| ==> text[..|p|] == name[..|p|];
  }

  /**
   Conversely, a pattern with an embedded NUL followed by anything has a name on which the
   chain reads past the terminator.
   */
  lemma EmbeddedNulIsUnsafe(p: string, k: nat)
    requires k + 1 < |p| && k < COMM_LEN && p[k] == NUL && NUL !in p[..k]
    ensures IsName(p[..k])
    ensures EvalAnd(PrefixTests(p), Buffer(p[..k])) == Undefined
  {
    ChainMeaning(p, p[..k]);
    assert p[..k] + [NUL] == p[..k + 1];
  }

  /** A branch that compares with a pattern. */
  lemma BranchMeaning(p: string, result: Class, rest: seq<Branch>, otherwise: Class, name: Name)
    requires p != [] && NUL !in p && Executable(rest)
    ensures Executable([Branch(PrefixTests(p), result)] + rest)
    ensures EvalBranches([Branch(PrefixTests(p), result)] + rest, otherwise, Buffer(name))
         == if p <= name then Some(result) else EvalBranches(rest, otherwise, Buffer(name))
  {
    PrefixChainMeaning(p, name);
    assert ([Branch(PrefixTests(p), result)] + rest)[1..] == rest;
  }
}
