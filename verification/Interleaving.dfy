/**
 The preemption scan without the assumption that callbacks are atomic.

 `running` samples the clock, writes the flag, then the start time; `stopping` clears the
 flag; the scan samples the clock once and then, per CPU, reads the flag and later the start
 time. Here these accesses interleave freely across CPUs. Only background tasks touch the
 maps, so a CPU without one is `Away`.
 */
module Interleaving {
  import opened Wrappers
  import opened Machine

  /** How far the background task of a CPU is in its `running` callback. */
  datatype Phase = Away | Entered | FlagSet | Recorded

  /** `since` is the time `running` sampled; `flag` and `start` are the map entries. */
  datatype Slot = Slot(phase: Phase, since: Word, flag: nat, start: Word)

  datatype Scanner =
    | Resting
    | AtFlag(now: Word, next: nat)
    | AtStart(now: Word, next: nat)

  datatype World = World(clock: Word, slots: seq<Slot>, scanner: Scanner, kicked: seq<Cpu>)

  datatype Action =
    | Enter(cpu: Cpu)
    | WriteFlag(cpu: Cpu)
    | WriteStart(cpu: Cpu)
    | Leave(cpu: Cpu)
    | Sample
    | ReadFlag
    | ReadStart
    | Advance(ns: nat)

  predicate Can(w: World, a: Action) {
    match a
    case Enter(cpu) => cpu < |w.slots| && w.slots[cpu].phase == Away
    case WriteFlag(cpu) => cpu < |w.slots| && w.slots[cpu].phase == Entered
    case WriteStart(cpu) => cpu < |w.slots| && w.slots[cpu].phase == FlagSet
    case Leave(cpu) => cpu < |w.slots| && w.slots[cpu].phase == Recorded
    case Sample => w.scanner.Resting?
    case ReadFlag => w.scanner.AtFlag? && w.scanner.next < |w.slots|
    case ReadStart => w.scanner.AtStart? && w.scanner.next < |w.slots|
    case Advance(ns) => w.clock + ns < U64
  }

  function Act(w: World, a: Action): World
    requires Can(w, a)
  {
    match a
    case Enter(cpu) => w.(slots := w.slots[cpu := w.slots[cpu].(phase := Entered, since := w.clock)])
    case WriteFlag(cpu) => w.(slots := w.slots[cpu := w.slots[cpu].(phase := FlagSet, flag := 1)])
    case WriteStart(cpu) =>
      w.(slots := w.slots[cpu := w.slots[cpu].(phase := Recorded, start := w.slots[cpu].since)])
    case Leave(cpu) => w.(slots := w.slots[cpu := w.slots[cpu].(phase := Away, flag := 0)])
    case Sample => w.(scanner := AtFlag(w.clock, 0))
    case ReadFlag =>
      var s, i := w.scanner, w.scanner.next;
      if w.slots[i].flag != 0 then w.(scanner := AtStart(s.now, i))
      else if i + 1 < |w.slots| then w.(scanner := AtFlag(s.now, i + 1))
      else w.(scanner := Resting)
    case ReadStart =>
      var s, i := w.scanner, w.scanner.next;
      if Sub64(s.now, w.slots[i].start) >= BG_MIN_RUN_NS then w.(scanner := Resting, kicked := w.kicked + [i])
      else if i + 1 < |w.slots| then w.(scanner := AtFlag(s.now, i + 1))
      else w.(scanner := Resting)
    case Advance(ns) => w.(clock := w.clock + ns)
  }

  /** What holds at every moment of every interleaving. */
  predicate SlotOk(s: Slot, clock: Word) {
    && (s.flag == if s.phase == FlagSet || s.phase == Recorded then 1 else 0)
    && (s.phase == Recorded ==> s.start == s.since)
    && (s.phase == Entered || s.phase == FlagSet ==> s.start <= s.since)
    && s.since <= clock && s.start <= clock
  }

  /** A task found in `Entered` after its flag was read arrived since, and not before the sample. */
  predicate ScannerOk(w: World) {
    && (!w.scanner.Resting? ==> w.scanner.now <= w.clock)
    && (w.scanner.AtStart? && w.scanner.next < |w.slots| && w.slots[w.scanner.next].phase == Entered ==>
          w.scanner.now <= w.slots[w.scanner.next].since)
  }

  predicate Ok(w: World) {
    && (forall i :: 0 <= i < |w.slots| ==> SlotOk(w.slots[i], w.clock))
    && ScannerOk(w)
  }

  predicate Started(w: World) {
    w.scanner == Resting && w.kicked == [] && forall i :: 0 <= i < |w.slots| ==> w.slots[i] == Slot(Away, 0, 0, 0)
  }

  lemma ActOk(w: World, a: Action)
    requires Ok(w) && Can(w, a)
    ensures Ok(Act(w, a))
  {
  }

  predicate Possible(w: World, actions: seq<Action>)
    decreases |actions|
  {
    actions == [] || (Can(w, actions[0]) && Possible(Act(w, actions[0]), actions[1..]))
  }

  function Outcome(w: World, actions: seq<Action>): World
    requires Possible(w, actions)
    decreases |actions|
  {
    if actions == [] then w else Outcome(Act(w, actions[0]), actions[1..])
  }

  lemma {:induction false} AlwaysOk(w: World, actions: seq<Action>)
    requires Ok(w) && Possible(w, actions)
    ensures Ok(Outcome(w, actions))
    decreases |actions|
  {
    if actions != [] {
      ActOk(w, actions[0]);
      AlwaysOk(Act(w, actions[0]), actions[1..]);
    }
  }

  /** The background task has run for the minimum by the time the scan sampled. */
  predicate OverdueAt(s: Slot, now: Word) {
    s.phase != Away && s.since + BG_MIN_RUN_NS <= now
  }

  /** The scan reads a settled entry of a task that was already running when it sampled. */
  predicate Settled(s: Slot, now: Word) {
    s.phase == Recorded && s.since <= now
  }

  predicate Kicks(w: World)
    requires Can(w, ReadStart)
  {
    Act(w, ReadStart).kicked != w.kicked
  }

  /** How the scan's subtraction sees a start time: by its distance on the circle of u64 values. */
  predicate LooksLong(start: Word, now: Word) {
    if start <= now then start + BG_MIN_RUN_NS <= now else start - now <= U64 - BG_MIN_RUN_NS
  }

  /**
   In every interleaving the scan errs on one side only: a CPU whose task is overdue is
   kicked, so every wrong decision is a premature kick. The decision is right if and only if
   the entry read does not look long, or the task has set its flag and is overdue. A task
   that has only entered `running` since its predecessor's flag was read is never overdue.
   */
  lemma DecisionIsRightIff(w0: World, actions: seq<Action>)
    requires Started(w0) && Possible(w0, actions) && Can(Outcome(w0, actions), ReadStart)
    ensures var w := Outcome(w0, actions);
            var s, now := w.slots[w.scanner.next], w.scanner.now;
            && (OverdueAt(s, now) ==> Kicks(w))
            && (s.phase == Entered ==> !OverdueAt(s, now))
            && ((Kicks(w) <==> OverdueAt(s, now)) <==>
                  !LooksLong(s.start, now)
                  || ((s.phase == FlagSet || s.phase == Recorded) && s.since + BG_MIN_RUN_NS <= now))
  {
    AlwaysOk(w0, actions);
    var w := Outcome(w0, actions);
    KicksIffLooksLong(w);
    assert SlotOk(w.slots[w.scanner.next], w.clock);
  }

  lemma KicksIffLooksLong(w: World)
    requires Can(w, ReadStart)
    ensures Kicks(w) <==> LooksLong(w.slots[w.scanner.next].start, w.scanner.now)
  {
    assert w.kicked + [w.scanner.next] != w.kicked by {
      assert |w.kicked + [w.scanner.next]| == |w.kicked| + 1;
    }
  }

  /**
   In particular the decision is right when the entry read is settled; and when the task was
   switched in after the sample and has recorded its start, the subtraction wraps and the
   CPU is kicked at once.
   */
  lemma DecisionInAnyInterleaving(w0: World, actions: seq<Action>)
    requires Started(w0) && Possible(w0, actions) && Can(Outcome(w0, actions), ReadStart)
    ensures var w := Outcome(w0, actions);
            var s, now := w.slots[w.scanner.next], w.scanner.now;
            && (Settled(s, now) ==> (Kicks(w) <==> OverdueAt(s, now)))
            && (s.phase == Recorded && now < s.since <= now + U64 - BG_MIN_RUN_NS ==> Kicks(w))
  {
    AlwaysOk(w0, actions);
    var w := Outcome(w0, actions);
    KicksIffLooksLong(w);
    assert SlotOk(w.slots[w.scanner.next], w.clock);
  }

  /** The entry that the scan kicks when nothing interferes: the first with a flag and a long time. */
  function FirstLong(slots: seq<Slot>, now: Word, from: nat): (r: Option<nat>)
    requires from <= |slots|
    ensures r.Some? ==> from <= r.value < |slots| && slots[r.value].flag != 0 && LooksLong(slots[r.value].start, now)
    ensures forall i :: from <= i < (if r.Some? then r.value else |slots|) ==>
              slots[i].flag == 0 || !LooksLong(slots[i].start, now)
    decreases |slots| - from
  {
    if from == |slots| then None
    else if slots[from].flag != 0 && LooksLong(slots[from].start, now) then Some(from)
    else FirstLong(slots, now, from + 1)
  }

  /** The scan's own accesses from entry `i` on, as they follow each other undisturbed. */
  function Accesses(slots: seq<Slot>, now: Word, i: nat): seq<Action>
    requires i <= |slots|
    decreases |slots| - i
  {
    if i == |slots| then []
    else if slots[i].flag == 0 then [ReadFlag] + Accesses(slots, now, i + 1)
    else if LooksLong(slots[i].start, now) then [ReadFlag, ReadStart]
    else [ReadFlag] + ([ReadStart] + Accesses(slots, now, i + 1))
  }

  function ScanPosition(now: Word, i: nat, n: nat): Scanner {
    if i < n then AtFlag(now, i) else Resting
  }

  /**
   Undisturbed, the scan is the atomic one: it ends, changes nothing but the kicks, and kicks
   exactly the first CPU whose flag is set and whose time looks long, if there is one.
   */
  lemma {:induction false} UndisturbedScan(w: World, now: Word, i: nat)
    requires i <= |w.slots| && w.scanner == ScanPosition(now, i, |w.slots|)
    ensures var actions, found := Accesses(w.slots, now, i), FirstLong(w.slots, now, i);
            && Possible(w, actions)
            && Outcome(w, actions)
               == w.(scanner := Resting, kicked := w.kicked + if found.Some? then [found.value] else [])
    decreases |w.slots| - i
  {
    if i == |w.slots| {
      assert w.kicked + [] == w.kicked;
    } else {
      var w1 := Act(w, ReadFlag);
      if w.slots[i].flag == 0 {
        UndisturbedScan(w1, now, i + 1);
        Prefixed(w, ReadFlag, Accesses(w.slots, now, i + 1));
      } else {
        var w2 := Act(w1, ReadStart);
        KicksIffLooksLong(w1);
        if LooksLong(w.slots[i].start, now) {
          Prefixed(w1, ReadStart, []);
          Prefixed(w, ReadFlag, [ReadStart]);
          assert [ReadStart] + [] == [ReadStart] && [ReadFlag] + [ReadStart] == [ReadFlag, ReadStart];
        } else {
          UndisturbedScan(w2, now, i + 1);
          Prefixed(w1, ReadStart, Accesses(w.slots, now, i + 1));
          Prefixed(w, ReadFlag, [ReadStart] + Accesses(w.slots, now, i + 1));
        }
      }
    }
  }

  lemma Prefixed(w: World, a: Action, rest: seq<Action>)
    requires Can(w, a)
    ensures Possible(w, [a] + rest) <==> Possible(Act(w, a), rest)
    ensures Possible(Act(w, a), rest) ==> Outcome(w, [a] + rest) == Outcome(Act(w, a), rest)
  {
    assert ([a] + rest)[0] == a && ([a] + rest)[1..] == rest;
  }

  /** A flag is only ever seen set while a background task is on that CPU. */
  lemma FlagSeenMeansBackground(w0: World, actions: seq<Action>)
    requires Started(w0) && Possible(w0, actions) && Can(Outcome(w0, actions), ReadFlag)
    ensures var w := Outcome(w0, actions);
            Act(w, ReadFlag).scanner.AtStart? <==>
            w.slots[w.scanner.next].phase == FlagSet || w.slots[w.scanner.next].phase == Recorded
  {
    AlwaysOk(w0, actions);
    var w := Outcome(w0, actions);
    assert SlotOk(w.slots[w.scanner.next], w.clock);
  }

  /**
   A premature kick: the scan samples, one nanosecond later a background task is switched
   in and records its start, and the scan then kicks it.
   */
  lemma PrematureKick() returns (actions: seq<Action>)
    ensures var w0 := World(1, [Slot(Away, 0, 0, 0)], Resting, []);
            Started(w0) && Possible(w0, actions)
            && var w := Outcome(w0, actions);
               |w.slots| == 1 && w.kicked == [0] && w.slots[0].phase == Recorded
               && w.clock == w.slots[0].since
  {
    var w0 := World(1, [Slot(Away, 0, 0, 0)], Resting, []);
    var w1 := World(1, [Slot(Away, 0, 0, 0)], AtFlag(1, 0), []);
    var w2 := World(2, [Slot(Away, 0, 0, 0)], AtFlag(1, 0), []);
    var w3 := World(2, [Slot(Entered, 2, 0, 0)], AtFlag(1, 0), []);
    var w4 := World(2, [Slot(FlagSet, 2, 1, 0)], AtFlag(1, 0), []);
    var w5 := World(2, [Slot(Recorded, 2, 1, 2)], AtFlag(1, 0), []);
    var w6 := World(2, [Slot(Recorded, 2, 1, 2)], AtStart(1, 0), []);
    var w7 := World(2, [Slot(Recorded, 2, 1, 2)], Resting, [0]);
    actions := Then(w7, [], w6, ReadStart);
    actions := Then(w6, actions, w5, ReadFlag);
    actions := Then(w5, actions, w4, WriteStart(0));
    actions := Then(w4, actions, w3, WriteFlag(0));
    actions := Then(w3, actions, w2, Enter(0));
    actions := Then(w2, actions, w1, Advance(1));
    actions := Then(w1, actions, w0, Sample);
  }

  /**
   Without any wrap: `running` sets the flag before the time, so the scan can pair the new
   flag with the old time and kick a task that started that very instant.
   */
  lemma StaleTimeKick() returns (actions: seq<Action>)
    ensures var w0 := World(5_000_000, [Slot(Away, 0, 0, 0)], Resting, []);
            Started(w0) && Possible(w0, actions)
            && var w := Outcome(w0, actions);
               |w.slots| == 1 && w.kicked == [0] && w.slots[0].phase == FlagSet
               && w.slots[0].since == w.clock == 5_000_000
  {
    var now: Word := 5_000_000;
    var w0 := World(now, [Slot(Away, 0, 0, 0)], Resting, []);
    var w1 := World(now, [Slot(Entered, now, 0, 0)], Resting, []);
    var w2 := World(now, [Slot(FlagSet, now, 1, 0)], Resting, []);
    var w3 := World(now, [Slot(FlagSet, now, 1, 0)], AtFlag(now, 0), []);
    var w4 := World(now, [Slot(FlagSet, now, 1, 0)], AtStart(now, 0), []);
    var w5 := World(now, [Slot(FlagSet, now, 1, 0)], Resting, [0]);
    actions := Then(w5, [], w4, ReadStart);
    actions := Then(w4, actions, w3, ReadFlag);
    actions := Then(w3, actions, w2, Sample);
    actions := Then(w2, actions, w1, WriteFlag(0));
    actions := Then(w1, actions, w0, Enter(0));
  }

  lemma Then(r: World, rest: seq<Action>, w: World, a: Action) returns (actions: seq<Action>)
    requires Can(w, a) && Act(w, a) == r && Possible(r, rest)
    ensures Possible(w, actions) && Outcome(w, actions) == Outcome(r, rest)
  {
    actions := [a] + rest;
    assert actions[1..] == rest;
  }
}
