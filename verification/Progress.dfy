/**
 Who is dispatched when: strict priority, bounded bypass of foreground tasks, progress of
 background tasks against the number of foreground arrivals, and starvation by arrivals.
 */
module Progress {
  import opened Wrappers
  import opened Comm
  import opened Machine
  import opened Conservation
  import opened Scenarios

  function Fg(h: Host, s: State): seq<Task>
    requires h.policy.fgDsq in s.dsqs
  {
    s.dsqs[h.policy.fgDsq]
  }

  function Bg(h: Host, s: State): seq<Task>
    requires h.policy.bgDsq in s.dsqs
  {
    s.dsqs[h.policy.bgDsq]
  }

  /** The CPU's turn takes the task at position `i` of the queue: the first that may run there. */
  ghost predicate IsFirstFor(h: Host, q: seq<Task>, cpu: Cpu, i: nat) {
    i < |q| && h.may(q[i], cpu) && forall j :: 0 <= j < i ==> !h.may(q[j], cpu)
  }

  predicate NoneFor(h: Host, q: seq<Task>, cpu: Cpu) {
    forall j :: 0 <= j < |q| ==> !h.may(q[j], cpu)
  }

  /**
   What a CPU with an empty local queue gets: the first foreground task that may run there;
   only if there is none, the first such background task; otherwise nothing.
   */
  lemma DispatchPriority(h: Host, s: State, cpu: Cpu, i: nat)
    requires Shaped(h, s) && Enabled(h, s, Balance(cpu))
    ensures var r := Step(h, s, Balance(cpu));
            && (IsFirstFor(h, Fg(h, s), cpu, i) ==>
                  r.dsqs == s.dsqs[h.policy.fgDsq := Without(Fg(h, s), i)]
                  && r.cpus[cpu].local == [Fg(h, s)[i]])
            && (NoneFor(h, Fg(h, s), cpu) && IsFirstFor(h, Bg(h, s), cpu, i) ==>
                  r.dsqs == s.dsqs[h.policy.bgDsq := Without(Bg(h, s), i)]
                  && r.cpus[cpu].local == [Bg(h, s)[i]])
            && (NoneFor(h, Fg(h, s), cpu) && NoneFor(h, Bg(h, s), cpu) ==> r == s)
  {
    FirstForIsFirst(h, Fg(h, s), cpu, i);
    FirstForIsFirst(h, Bg(h, s), cpu, i);
    FirstForIsFirst(h, s.dsqs[Global], cpu, i);
  }

  lemma FirstForIsFirst(h: Host, q: seq<Task>, cpu: Cpu, i: nat)
    ensures IsFirstFor(h, q, cpu, i) <==> FirstFor(h, q, cpu) == Some(i)
    ensures NoneFor(h, q, cpu) <==> FirstFor(h, q, cpu) == None
  {
    var found := FirstFor(h, q, cpu);
    if IsFirstFor(h, q, cpu, i) {
      assert found.Some?;
      assert !(found.value < i) && !(i < found.value);
    }
  }

  // ----- positions in a queue

  function Position(q: seq<Task>, t: Task): (i: nat)
    requires t in q
    ensures i < |q| && q[i] == t && forall j :: 0 <= j < i ==> q[j] != t
  {
    if q[0] == t then 0 else 1 + Position(q[1..], t)
  }

  lemma PositionIs(q: seq<Task>, t: Task, i: nat)
    requires i < |q| && q[i] == t && forall j :: 0 <= j < i ==> q[j] != t
    ensures t in q && Position(q, t) == i
  {
    var p := Position(q, t);
    assert !(p < i) && !(i < p);
  }

  lemma WithoutEarlier(q: seq<Task>, i: nat, t: Task)
    requires t in q && i < Position(q, t)
    ensures t in Without(q, i) && Position(Without(q, i), t) == Position(q, t) - 1
  {
    var p, r := Position(q, t), Without(q, i);
    assert r[p - 1] == q[p];
    forall j | 0 <= j < p - 1
      ensures r[j] != t
    {
      assert r[j] == q[if j < i then j else j + 1];
    }
    PositionIs(r, t, p - 1);
  }

  lemma WithoutLater(q: seq<Task>, i: nat, t: Task)
    requires t in q && Position(q, t) < i < |q|
    ensures t in Without(q, i) && Position(Without(q, i), t) == Position(q, t)
  {
    var p, r := Position(q, t), Without(q, i);
    forall j | 0 <= j <= p
      ensures r[j] == q[j]
    {
    }
    PositionIs(r, t, p);
  }

  lemma CountIsMembership(q: seq<Task>, t: Task)
    ensures Count(q, t) > 0 <==> t in q
  {
  }

  /** Removing another task does not move a waiting task back, and moves it up if it was ahead. */
  lemma PositionWithout(q: seq<Task>, i: nat, t: Task)
    requires i < |q| && t in q && Count(q, t) == 1
    ensures i == Position(q, t) ==> t !in Without(q, i)
    ensures i != Position(q, t) ==>
              t in Without(q, i)
              && Position(Without(q, i), t) == Position(q, t) - if i < Position(q, t) then 1 else 0
  {
    if i < Position(q, t) {
      WithoutEarlier(q, i, t);
    } else if Position(q, t) < i {
      WithoutLater(q, i, t);
    } else {
      CountWithout(q, i, t);
      CountIsMembership(Without(q, i), t);
    }
  }

  lemma PositionAppend(q: seq<Task>, u: Task, t: Task)
    requires t in q
    ensures t in q + [u] && Position(q + [u], t) == Position(q, t)
  {
    PositionIs(q + [u], t, Position(q, t));
  }

  // ----- waiting

  /** The task is in the queue in every state of the run. */
  ghost predicate Waits(h: Host, s: State, es: seq<Event>, t: Task, dsq: DsqId)
    requires Shaped(h, s) && Feasible(h, s, es) && dsq in s.dsqs
    decreases |es|
  {
    t in s.dsqs[dsq]
    && (es != [] ==> (StepShape(h, s, es[0]); Waits(h, Step(h, s, es[0]), es[1..], t, dsq)))
  }

  /** The dispatch turns of the run on CPUs the task may use. */
  function Turns(h: Host, es: seq<Event>, t: Task): nat {
    if es == [] then 0
    else (if es[0].Balance? && h.may(t, es[0].cpu) then 1 else 0) + Turns(h, es[1..], t)
  }

  /** How one event changes a shared queue: a removal by a turn, an arrival, or not at all. */
  datatype QueueChange = Same | Taken(index: nat, cpu: Cpu) | Arrived(task: Task)

  ghost predicate Changes(h: Host, q: seq<Task>, r: seq<Task>, c: QueueChange) {
    match c
    case Same => r == q
    case Taken(i, cpu) => IsFirstFor(h, q, cpu, i) && r == Without(q, i)
    case Arrived(t) => r == q + [t]
  }

  lemma EnqueueChange(h: Host, s: State, t: Task, storage: bool, dsq: DsqId) returns (c: QueueChange)
    requires Shaped(h, s) && dsq in s.dsqs
    ensures var r := Enqueue(h, s, t, storage);
            Shaped(h, r) && Changes(h, s.dsqs[dsq], r.dsqs[dsq], c) && !c.Taken?
            && (c.Arrived? ==> r.dsqs == s.dsqs[dsq := s.dsqs[dsq] + [c.task]])
  {
    EnqueueShape(h, s, t, storage);
    c := if DsqFor(h, ClassOf(h, s, t)) == dsq then Arrived(t) else Same;
  }

  lemma NonTurnChange(h: Host, s: State, e: Event, dsq: DsqId) returns (c: QueueChange)
    requires Shaped(h, s) && Enabled(h, s, e) && dsq in s.dsqs && !e.Balance?
    ensures Changes(h, s.dsqs[dsq], Step(h, s, e).dsqs[dsq], c) && !c.Taken?
    ensures c.Arrived? ==> Step(h, s, e).dsqs == s.dsqs[dsq := s.dsqs[dsq] + [c.task]]
  {
    c := Same;
    match e
    case Wake(t, cpu, idle, storage, storage2) =>
      if !idle {
        c := EnqueueChange(h, SelectCpu(h, s.(runnable := s.runnable + {t}), t, cpu, idle, storage), t, storage2, dsq);
      }
    case Stop(cpu, runnable, storage, storage2) =>
      if runnable {
        c := EnqueueChange(h, SwitchOut(h, s, cpu, storage), s.cpus[cpu].current.value, storage2, dsq);
      }
    case _ =>
  }

  lemma TurnChange(h: Host, s: State, cpu: Cpu) returns (fg: QueueChange, bg: QueueChange)
    requires Shaped(h, s) && Enabled(h, s, Balance(cpu))
    ensures var r := Step(h, s, Balance(cpu));
            && Changes(h, Fg(h, s), Fg(h, r), fg) && Changes(h, Bg(h, s), Bg(h, r), bg)
    ensures (fg == Same && NoneFor(h, Fg(h, s), cpu)) || (fg.Taken? && fg.cpu == cpu && bg == Same)
    ensures fg == Same ==> (bg == Same && NoneFor(h, Bg(h, s), cpu)) || (bg.Taken? && bg.cpu == cpu)
  {
    var i, j := FirstFor(h, Fg(h, s), cpu), FirstFor(h, Bg(h, s), cpu);
    var k := if i.Some? then i.value else if j.Some? then j.value else 0;
    DispatchPriority(h, s, cpu, k);
    FirstForIsFirst(h, Fg(h, s), cpu, k);
    FirstForIsFirst(h, Bg(h, s), cpu, k);
    fg := if i.Some? then Taken(k, cpu) else Same;
    bg := if i.None? && j.Some? then Taken(k, cpu) else Same;
  }

  lemma QueuedOnce(h: Host, s: State, t: Task, dsq: DsqId)
    requires Shaped(h, s) && Conserved(h, s) && dsq in s.dsqs && t in s.dsqs[dsq]
    ensures Count(s.dsqs[dsq], t) == 1
  {
    assert Places(h, s, t) == if t in s.runnable then 1 else 0;
  }

  // ----- bounded bypass

  lemma StepBypass(h: Host, s: State, e: Event, t: Task)
    requires Shaped(h, s) && Conserved(h, s) && Enabled(h, s, e) && t in Fg(h, s)
    requires Shaped(h, Step(h, s, e)) && t in Fg(h, Step(h, s, e))
    ensures Position(Fg(h, Step(h, s, e)), t) + Turns(h, [e], t) <= Position(Fg(h, s), t)
  {
    QueuedOnce(h, s, t, h.policy.fgDsq);
    assert Turns(h, [e], t) == if e.Balance? && h.may(t, e.cpu) then 1 else 0;
    if e.Balance? {
      var fg, bg := TurnChange(h, s, e.cpu);
      if fg.Taken? {
        PositionWithout(Fg(h, s), fg.index, t);
      }
    } else {
      var c := NonTurnChange(h, s, e, h.policy.fgDsq);
      if c.Arrived? {
        PositionAppend(Fg(h, s), c.task, t);
      }
    }
  }

  /**
   Bounded bypass: while a foreground task waits, every dispatch turn on a CPU it may use
   brings it one place forward, whatever else happens in between.
   */
  lemma {:induction false} WaitingForegroundAdvances(h: Host, s: State, es: seq<Event>, t: Task)
    requires Shaped(h, s) && Feasible(h, s, es) && Conserved(h, s)
    requires Waits(h, s, es, t, h.policy.fgDsq)
    ensures t in Fg(h, Run(h, s, es))
    ensures Position(Fg(h, Run(h, s, es)), t) + Turns(h, es, t) <= Position(Fg(h, s), t)
    decreases |es|
  {
    if es != [] {
      StepConserves(h, s, es[0]);
      var s1 := Step(h, s, es[0]);
      WaitingForegroundAdvances(h, s1, es[1..], t);
      StepBypass(h, s, es[0], t);
    }
  }

  /** So with k tasks ahead it has left the queue after k + 1 such turns. */
  lemma ForegroundBypassBound(h: Host, s: State, es: seq<Event>, t: Task)
    requires Shaped(h, s) && Feasible(h, s, es) && Conserved(h, s) && t in Fg(h, s)
    requires Turns(h, es, t) >= Position(Fg(h, s), t) + 1
    ensures !Waits(h, s, es, t, h.policy.fgDsq)
  {
    if Waits(h, s, es, t, h.policy.fgDsq) {
      WaitingForegroundAdvances(h, s, es, t);
    }
  }

  /** A queued task leaves its queue only by a turn of a CPU it may use, to that CPU. */
  lemma LeavesByTurn(h: Host, s: State, e: Event, t: Task, dsq: DsqId)
    requires Shaped(h, s) && Enabled(h, s, e) && Shaped(h, Step(h, s, e))
    requires dsq == h.policy.fgDsq || dsq == h.policy.bgDsq
    requires t in s.dsqs[dsq] && t !in Step(h, s, e).dsqs[dsq]
    ensures e.Balance? && h.may(t, e.cpu) && Step(h, s, e).cpus[e.cpu].local == [t]
  {
    if e.Balance? {
      var fg, bg := TurnChange(h, s, e.cpu);
      var c := if dsq == h.policy.fgDsq then fg else bg;
      assert c.Taken?;
      StaysAfterRemoval(s.dsqs[dsq], c.index, t);
      DispatchPriority(h, s, e.cpu, c.index);
    } else {
      var c := NonTurnChange(h, s, e, dsq);
    }
  }

  lemma StaysAfterRemoval(q: seq<Task>, i: nat, t: Task)
    requires i < |q| && t in q
    ensures t == q[i] || t in Without(q, i)
  {
    assert q == q[..i] + [q[i]] + q[i + 1..];
  }

  // ----- background progress

  /** One if the event puts a task on the foreground queue. */
  function Arrival(h: Host, s: State, e: Event): nat
    requires Shaped(h, s) && Enabled(h, s, e) && h.policy.fgDsq in Step(h, s, e).dsqs
  {
    if |Fg(h, Step(h, s, e))| > |Fg(h, s)| then 1 else 0
  }

  /** The foreground arrivals of a run. */
  ghost function Arrivals(h: Host, s: State, es: seq<Event>): nat
    requires Shaped(h, s) && Feasible(h, s, es)
    decreases |es|
  {
    if es == [] then 0
    else StepShape(h, s, es[0]); Arrival(h, s, es[0]) + Arrivals(h, Step(h, s, es[0]), es[1..])
  }

  /** What is still ahead of a background task. */
  function Ahead(h: Host, s: State, t: Task): nat
    requires h.policy.fgDsq in s.dsqs && h.policy.bgDsq in s.dsqs && t in Bg(h, s)
  {
    |Fg(h, s)| + Position(Bg(h, s), t)
  }

  lemma TurnAhead(h: Host, s: State, cpu: Cpu, t: Task)
    requires Shaped(h, s) && Conserved(h, s) && Enabled(h, s, Balance(cpu)) && t in Bg(h, s)
    requires Shaped(h, Step(h, s, Balance(cpu))) && t in Bg(h, Step(h, s, Balance(cpu)))
    ensures |Fg(h, Step(h, s, Balance(cpu)))| <= |Fg(h, s)|
    ensures Ahead(h, Step(h, s, Balance(cpu)), t) + (if h.may(t, cpu) then 1 else 0) <= Ahead(h, s, t)
  {
    QueuedOnce(h, s, t, h.policy.bgDsq);
    var fg, bg := TurnChange(h, s, cpu);
    if bg.Taken? {
      PositionWithout(Bg(h, s), bg.index, t);
    }
  }

  lemma NonTurnAhead(h: Host, s: State, e: Event, t: Task)
    requires Shaped(h, s) && Enabled(h, s, e) && !e.Balance? && t in Bg(h, s)
    requires Shaped(h, Step(h, s, e))
    ensures t in Bg(h, Step(h, s, e))
    ensures Ahead(h, Step(h, s, e), t) == Ahead(h, s, t) + Arrival(h, s, e)
  {
    var fg := NonTurnChange(h, s, e, h.policy.fgDsq);
    var bg := NonTurnChange(h, s, e, h.policy.bgDsq);
    if bg.Arrived? {
      PositionAppend(Bg(h, s), bg.task, t);
    }
  }

  lemma StepAhead(h: Host, s: State, e: Event, t: Task)
    requires Shaped(h, s) && Conserved(h, s) && Enabled(h, s, e) && t in Bg(h, s)
    requires Shaped(h, Step(h, s, e)) && t in Bg(h, Step(h, s, e))
    ensures Ahead(h, Step(h, s, e), t) + Turns(h, [e], t) <= Ahead(h, s, t) + Arrival(h, s, e)
  {
    assert Turns(h, [e], t) == if e.Balance? && h.may(t, e.cpu) then 1 else 0;
    if e.Balance? {
      TurnAhead(h, s, e.cpu, t);
    } else {
      NonTurnAhead(h, s, e, t);
    }
  }

  /**
   Over every run: while a background task waits, the turns of CPUs it may use are paid for
   by what is ahead of it and by foreground arrivals.
   */
  lemma {:induction false} WaitingBackgroundAdvances(h: Host, s: State, es: seq<Event>, t: Task)
    requires Shaped(h, s) && Feasible(h, s, es) && Conserved(h, s)
    requires Waits(h, s, es, t, h.policy.bgDsq)
    ensures t in Bg(h, Run(h, s, es))
    ensures Ahead(h, Run(h, s, es), t) + Turns(h, es, t) <= Ahead(h, s, t) + Arrivals(h, s, es)
    decreases |es|
  {
    if es != [] {
      StepConserves(h, s, es[0]);
      WaitingBackgroundAdvances(h, Step(h, s, es[0]), es[1..], t);
      StepAhead(h, s, es[0], t);
    }
  }

  /**
   Background progress: a background task with j ahead of it has left its queue after
   |foreground queue| + j + 1 dispatch turns on CPUs it may use, and one more for every
   foreground arrival.
   */
  lemma BackgroundProgress(h: Host, s: State, es: seq<Event>, t: Task)
    requires Shaped(h, s) && Feasible(h, s, es) && Conserved(h, s) && t in Bg(h, s)
    requires Turns(h, es, t) >= |Fg(h, s)| + Position(Bg(h, s), t) + 1 + Arrivals(h, s, es)
    ensures !Waits(h, s, es, t, h.policy.bgDsq)
  {
    if Waits(h, s, es, t, h.policy.bgDsq) {
      WaitingBackgroundAdvances(h, s, es, t);
    }
  }

  // ----- starvation

  /** One busy CPU: `f` runs, `g` is blocked, `t` waits in the background queue. */
  ghost predicate Contended(h: Host, s: State, f: Task, g: Task, t: Task)
    requires Shaped(h, s)
  {
    && h.nrCpus >= 1 && f != g && h.may(f, 0) && h.may(g, 0)
    && ClassOf(h, s, f) != Hog && ClassOf(h, s, g) != Hog
    && s.cpus[0].current == Some(f) && s.cpus[0].local == []
    && f in s.runnable && g !in s.runnable && Fg(h, s) == [] && t in Bg(h, s)
  }

  /** `g` wakes, the CPU takes it as its next task, what ran blocks, `g` runs. */
  function HandoverThen(g: Task, rest: seq<Event>): seq<Event> {
    [Wake(g, 0, false, true, true)] + ([Balance(0)]
    + ([Stop(0, false, true, true)] + ([Start(0, true)] + rest)))
  }

  function Handovers(f: Task, g: Task, n: nat): seq<Event>
    decreases n
  {
    if n == 0 then [] else HandoverThen(g, Handovers(g, f, n - 1))
  }

  /** A run of `n` dispatch turns during which the background task waits. */
  ghost predicate Starves(h: Host, s: State, es: seq<Event>, t: Task, n: nat) {
    Shaped(h, s) && Feasible(h, s, es) && Waits(h, s, es, t, h.policy.bgDsq) && Turns(h, es, t) == n
  }

  lemma StarvesBefore(h: Host, s: State, e: Event, r: State, es: seq<Event>, t: Task, n: nat)
    requires Shaped(h, s) && Enabled(h, s, e) && r == Step(h, s, e) && t in Bg(h, s) && Starves(h, r, es, t, n)
    ensures Starves(h, s, [e] + es, t, if e.Balance? && h.may(t, e.cpu) then n + 1 else n)
  {
    assert ([e] + es)[0] == e && ([e] + es)[1..] == es;
  }

  /** The states of one hand-over, as far as they matter. */
  ghost predicate MidHandover(h: Host, s: State, r: State, f: Task, g: Task, t: Task)
    requires Shaped(h, s) && Shaped(h, r) && h.nrCpus >= 1
  {
    && r.runnable == s.runnable + {g} && r.cpus[0].current == Some(f) && t in Bg(h, r)
    && forall u :: ClassOf(h, r, u) == ClassOf(h, s, u)
  }

  lemma WakeInto(h: Host, s: State, f: Task, g: Task, t: Task) returns (r: State)
    requires Shaped(h, s) && Contended(h, s, f, g, t)
    ensures var e := Wake(g, 0, false, true, true);
            Enabled(h, s, e) && r == Step(h, s, e) && Shaped(h, r)
    ensures MidHandover(h, s, r, f, g, t) && Fg(h, r) == [g] && r.cpus[0].local == []
  {
    var e := Wake(g, 0, false, true, true);
    r := Step(h, s, e);
    StepShape(h, s, e);
    var woken := s.(runnable := s.runnable + {g});
    var chosen := SelectCpu(h, woken, g, 0, false, true);
    SelectKeepsClasses(h, woken, g, 0, false, true);
    EnqueueKeepsClasses(h, chosen, g, true);
    assert forall u :: ClassOf(h, woken, u) == ClassOf(h, s, u);
  }

  lemma TakeNext(h: Host, s: State, f: Task, g: Task, t: Task) returns (r: State)
    requires Shaped(h, s) && h.nrCpus >= 1 && s.cpus[0].local == [] && h.may(g, 0)
    requires s.cpus[0].current == Some(f) && Fg(h, s) == [g] && t in Bg(h, s)
    ensures Enabled(h, s, Balance(0)) && r == Step(h, s, Balance(0)) && Shaped(h, r)
    ensures r.runnable == s.runnable && r.cpus[0].current == Some(f) && r.cpus[0].local == [g]
    ensures Fg(h, r) == [] && t in Bg(h, r) && forall u :: ClassOf(h, r, u) == ClassOf(h, s, u)
  {
    r := Step(h, s, Balance(0));
    StepShape(h, s, Balance(0));
    DispatchPriority(h, s, 0, 0);
  }

  lemma BlockCurrent(h: Host, s: State, f: Task) returns (r: State)
    requires Shaped(h, s) && h.nrCpus >= 1 && s.cpus[0].current == Some(f)
    ensures var e := Stop(0, false, true, true);
            Enabled(h, s, e) && r == Step(h, s, e) && Shaped(h, r) && r.dsqs == s.dsqs
    ensures r.runnable == s.runnable - {f} && r.cpus[0] == s.cpus[0].(current := None)
    ensures forall u :: ClassOf(h, r, u) == ClassOf(h, s, u)
  {
    var e := Stop(0, false, true, true);
    StepShape(h, s, e);
    r := Step(h, s, e);
    SwitchOutKeepsClasses(h, s, 0, true);
  }

  lemma RunNext(h: Host, s: State, g: Task) returns (r: State)
    requires Shaped(h, s) && h.nrCpus >= 1 && s.cpus[0].current.None? && s.cpus[0].local == [g]
    ensures var e := Start(0, true);
            Enabled(h, s, e) && r == Step(h, s, e) && Shaped(h, r) && r.dsqs == s.dsqs
    ensures r.runnable == s.runnable && r.cpus[0].current == Some(g) && r.cpus[0].local == []
    ensures forall u :: ClassOf(h, r, u) == ClassOf(h, s, u)
  {
    StepShape(h, s, Start(0, true));
    r := Step(h, s, Start(0, true));
    SwitchInKeepsClasses(h, s, 0, true);
  }

  /** `s1` to `s4` are the states after the four events of a hand-over to `g`. */
  ghost predicate HandoverStates(h: Host, s: State, s1: State, s2: State, s3: State, s4: State, g: Task, t: Task)
  {
    && Shaped(h, s) && Shaped(h, s1) && Shaped(h, s2) && Shaped(h, s3) && Shaped(h, s4)
    && (var e := Wake(g, 0, false, true, true); Enabled(h, s, e) && s1 == Step(h, s, e))
    && Enabled(h, s1, Balance(0)) && s2 == Step(h, s1, Balance(0))
    && (var e := Stop(0, false, true, true); Enabled(h, s2, e) && s3 == Step(h, s2, e))
    && Enabled(h, s3, Start(0, true)) && s4 == Step(h, s3, Start(0, true))
    && t in Bg(h, s) && t in Bg(h, s1) && t in Bg(h, s2) && t in Bg(h, s3)
  }

  lemma HandoverHappens(h: Host, s: State, f: Task, g: Task, t: Task)
      returns (s1: State, s2: State, s3: State, s4: State)
    requires Shaped(h, s) && Contended(h, s, f, g, t)
    ensures HandoverStates(h, s, s1, s2, s3, s4, g, t) && Contended(h, s4, g, f, t)
  {
    s1 := WakeInto(h, s, f, g, t);
    s2 := TakeNext(h, s1, f, g, t);
    s3 := BlockCurrent(h, s2, f);
    s4 := RunNext(h, s3, g);
    HandedOver(h, s, s1, s3, s4, f, g, t);
  }

  lemma HandedOver(h: Host, s: State, s1: State, s3: State, s4: State, f: Task, g: Task, t: Task)
    requires Shaped(h, s) && Shaped(h, s1) && Shaped(h, s3) && Shaped(h, s4)
    requires Contended(h, s, f, g, t) && MidHandover(h, s, s1, f, g, t)
    requires s3.runnable == s1.runnable - {f} && Fg(h, s3) == [] && t in Bg(h, s3)
    requires s4.runnable == s3.runnable && s4.dsqs == s3.dsqs
    requires s4.cpus[0].current == Some(g) && s4.cpus[0].local == []
    requires forall u :: ClassOf(h, s4, u) == ClassOf(h, s1, u)
    ensures Contended(h, s4, g, f, t)
  {
    assert ClassOf(h, s4, f) == ClassOf(h, s1, f) == ClassOf(h, s, f);
    assert ClassOf(h, s4, g) == ClassOf(h, s1, g) == ClassOf(h, s, g);
  }

  lemma HandoverRun(
      h: Host, s: State, s1: State, s2: State, s3: State, s4: State, g: Task, t: Task, rest: seq<Event>, n: nat)
    requires HandoverStates(h, s, s1, s2, s3, s4, g, t) && h.may(t, 0)
    requires Starves(h, s4, rest, t, n)
    ensures Starves(h, s, HandoverThen(g, rest), t, n + 1)
  {
    var e0, e1, e2, e3 := Wake(g, 0, false, true, true), Balance(0), Stop(0, false, true, true), Start(0, true);
    StarvesBefore(h, s3, e3, s4, rest, t, n);
    StarvesBefore(h, s2, e2, s3, [e3] + rest, t, n);
    StarvesBefore(h, s1, e1, s2, [e2] + ([e3] + rest), t, n);
    StarvesBefore(h, s, e0, s1, [e1] + ([e2] + ([e3] + rest)), t, n + 1);
  }

  /** One more turn in front of any starving run of the handed-over state. */
  lemma OneMoreTurn(h: Host, s: State, f: Task, g: Task, t: Task) returns (r: State)
    requires Shaped(h, s) && Contended(h, s, f, g, t) && h.may(t, 0)
    ensures Shaped(h, r) && Contended(h, r, g, f, t)
    ensures forall rest: seq<Event>, n: nat {:trigger Starves(h, r, rest, t, n)} ::
              Starves(h, r, rest, t, n) ==> Starves(h, s, HandoverThen(g, rest), t, n + 1)
  {
    var s1, s2, s3, s4 := HandoverHappens(h, s, f, g, t);
    r := s4;
    forall rest: seq<Event>, n: nat | Starves(h, s4, rest, t, n)
      ensures Starves(h, s, HandoverThen(g, rest), t, n + 1)
    {
      HandoverRun(h, s, s1, s2, s3, s4, g, t, rest, n);
    }
  }

  /**
   Arrivals can starve a background task: two foreground tasks that keep handing one CPU to
   each other make any number of dispatch turns while it waits.
   */
  lemma {:induction false} BackgroundCanStarve(h: Host, s: State, f: Task, g: Task, t: Task, n: nat)
    requires Shaped(h, s) && Contended(h, s, f, g, t) && h.may(t, 0)
    ensures Starves(h, s, Handovers(f, g, n), t, n)
    decreases n
  {
    if n > 0 {
      var r := OneMoreTurn(h, s, f, g, t);
      BackgroundCanStarve(h, r, g, f, t, n - 1);
    }
  }

  /** And only such a pace starves: every turn beyond what was ahead is matched by an arrival. */
  lemma StarvationNeedsArrivals(h: Host, s: State, es: seq<Event>, t: Task, n: nat)
    requires Starves(h, s, es, t, n) && Conserved(h, s)
    ensures t in Bg(h, s) && n <= Ahead(h, s, t) + Arrivals(h, s, es)
  {
    WaitingBackgroundAdvances(h, s, es, t);
  }

  // ----- such contention is reachable

  lemma QueueBehind(h: Host, s: State) returns (r: State)
    requires Shaped(h, s) && h.nrCpus >= 1 && 2 !in s.runnable && ClassOf(h, s, 2) == Hog && Bg(h, s) == []
    ensures var e := Wake(2, 0, false, true, true);
            Enabled(h, s, e) && r == Step(h, s, e) && Shaped(h, r)
    ensures r.runnable == s.runnable + {2} && r.cpus == s.cpus && Fg(h, r) == Fg(h, s) && Bg(h, r) == [2]
    ensures forall u :: ClassOf(h, r, u) == ClassOf(h, s, u)
  {
    var e := Wake(2, 0, false, true, true);
    StepShape(h, s, e);
    r := Step(h, s, e);
    var woken := s.(runnable := s.runnable + {2});
    SelectKeepsClasses(h, woken, 2, 0, false, true);
    EnqueueKeepsClasses(h, SelectCpu(h, woken, 2, 0, false, true), 2, true);
    assert forall u :: ClassOf(h, woken, u) == ClassOf(h, s, u);
  }

  /**
   Every policy that knows a background and another name reaches such contention, and from
   there runs of any number of dispatch turns that leave the background task waiting.
   */
  lemma StarvationIsReachable(h: Host, front: CommRead, back: CommRead, n: nat) returns (s: State, es: seq<Event>)
    requires h.Valid() && h.nrCpus >= 1 && h.may(0, 0) && h.may(1, 0) && h.may(2, 0)
    requires h.policy.classify(front) != Hog && h.policy.classify(back) == Hog
    ensures Feasible(h, Init(h), es) && s == Run(h, Init(h), es)
    ensures Starves(h, s, Handovers(0, 1, n), 2, n)
  {
    s, es := ContentionIsReachable(h, front, back);
    BackgroundCanStarve(h, s, 0, 1, 2, n);
  }

  lemma ContentionIsReachable(h: Host, front: CommRead, back: CommRead) returns (s: State, es: seq<Event>)
    requires h.Valid() && h.nrCpus >= 1 && h.may(0, 0) && h.may(1, 0) && h.may(2, 0)
    requires h.policy.classify(front) != Hog && h.policy.classify(back) == Hog
    ensures EndsIn(h, Init(h), es, s) && Contended(h, s, 0, 1, 2)
  {
    var s3 := NamedState(h, front, back);
    var e3, e4, e5 := Wake(0, 0, true, true, true), Start(0, true), Wake(2, 0, false, true, true);
    var s4, s5;
    s4, s5, s := ContendFrom(h, s3, front, back);
    es := [] + [Rename(0, front)] + [Rename(1, front)] + [Rename(2, back)];
    ThreeMore(h, Init(h), es, s3, e3, s4, e4, s5, e5, s);
    es := es + [e3] + [e4] + [e5];
  }

  lemma ContendFrom(h: Host, s: State, front: CommRead, back: CommRead) returns (s1: State, s2: State, s3: State)
    requires h.Valid() && h.nrCpus >= 1 && h.may(0, 0) && h.may(1, 0)
    requires h.policy.classify(front) != Hog && h.policy.classify(back) == Hog
    requires s == Init(h).(comm := map[0 := front, 1 := front, 2 := back]) && Shaped(h, s)
    ensures var e := Wake(0, 0, true, true, true);
            Enabled(h, s, e) && s1 == Step(h, s, e) && Shaped(h, s1)
    ensures Enabled(h, s1, Start(0, true)) && s2 == Step(h, s1, Start(0, true)) && Shaped(h, s2)
    ensures var e := Wake(2, 0, false, true, true);
            Enabled(h, s2, e) && s3 == Step(h, s2, e) && Shaped(h, s3)
    ensures Contended(h, s3, 0, 1, 2)
  {
    s1 := Step(h, s, Wake(0, 0, true, true, true));
    s2 := OccupyCpu(h, s, true);
    NamedClasses(h, s, front, back);
    assert ClassOf(h, s2, 2) == Hog;
    s3 := QueueBehind(h, s2);
    NowContended(h, s, s2, s3);
  }

  lemma NamedClasses(h: Host, s: State, front: CommRead, back: CommRead)
    requires h.Valid() && s == Init(h).(comm := map[0 := front, 1 := front, 2 := back])
    ensures ClassOf(h, s, 0) == ClassOf(h, s, 1) == h.policy.classify(front)
    ensures ClassOf(h, s, 2) == h.policy.classify(back)
  {
  }

  lemma NowContended(h: Host, s: State, s2: State, s3: State)
    requires Shaped(h, s) && Shaped(h, s2) && Shaped(h, s3) && h.nrCpus >= 1 && h.may(0, 0) && h.may(1, 0)
    requires Fg(h, s) == [] && ClassOf(h, s, 0) != Hog && ClassOf(h, s, 1) != Hog
    requires s2.runnable == {0} && s2.cpus[0].current == Some(0) && s2.cpus[0].local == [] && s2.dsqs == s.dsqs
    requires s3.runnable == s2.runnable + {2} && s3.cpus == s2.cpus && Fg(h, s3) == Fg(h, s2) && Bg(h, s3) == [2]
    requires forall u :: ClassOf(h, s2, u) == ClassOf(h, s, u)
    requires forall u :: ClassOf(h, s3, u) == ClassOf(h, s2, u)
    ensures Contended(h, s3, 0, 1, 2)
  {
    assert ClassOf(h, s3, 0) == ClassOf(h, s2, 0) == ClassOf(h, s, 0);
    assert ClassOf(h, s3, 1) == ClassOf(h, s2, 1) == ClassOf(h, s, 1);
  }
}
