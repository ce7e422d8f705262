/** What a thread is promised when it gets the processor: the configured quantum, all of it, on the
    configured devices, over whole runs and over all interleavings. */
module Allotments {
  import opened StableOrder
  import opened Scheduling
  import opened Conservation
  import opened SequentialMachine
  import opened MachineSafety
  import opened ScheduleOrder
  import opened Effects
  import opened Interleaving
  import opened MutualExclusion
  import opened Refinement
  import opened WorldSafety
  import opened DispatchOrder

  // ----- What so_init configured stays -----

  lemma AtCheckExactly(m: Machine)
    requires WellFormed(m) && Schedules(m)
    ensures AtCheck(m).quantum == m.s.quantum && |AtCheck(m).waiting| == |m.s.waiting|
    ensures m.script[m.s.current.value].Then? && m.script[m.s.current.value].op.Exec? ==> AtCheck(m).ready == m.s.ready
  {
    hide Terminate, Tick, Prologue, Check;
    var c := m.s.current.value;
    match m.script[c]
    case Done => LeaveExactly(m.s, c);
    case Then(op, _) => var u := CallExactly(m.s, op);
  }

  lemma StepKeepsSetup(m: Machine)
    requires WellFormed(m)
    ensures Step(m).s.quantum == m.s.quantum && |Step(m).s.waiting| == |m.s.waiting|
  {
    hide Step, AtCheck, Schedules, Check;
    StepIsCheck(m);
    if Schedules(m) {
      AtCheckExactly(m);
      CheckExactly(AtCheck(m));
    }
  }

  lemma {:induction false} RunKeepsSetup(m: Machine, n: nat)
    requires WellFormed(m)
    ensures After(m, n).s.quantum == m.s.quantum && |After(m, n).s.waiting| == |m.s.waiting|
  {
    hide Step, WellFormed;
    if n != 0 {
      RunKeepsSetup(m, n - 1);
      StepKeepsSetup(After(m, n - 1));
    }
  }

  /** A state in which the quantum and the devices are those `so_init` was asked for. */
  ghost predicate SetUp(s: Sched, quantum: int, io: nat) {
    s.quantum == quantum && |s.waiting| == io
  }

  /** Over whole runs, a call fails exactly when its device was not asked for, or its priority is too
      high; `so_exec` never does. */
  lemma RejectedExactly(s: Sched, quantum: int, io: nat, op: Op)
    requires SetUp(s, quantum, io)
    ensures Rejected(s, op) <==>
      (op.Wait? && io <= op.io) || (op.Signal? && io <= op.io) || (op.Fork? && 5 < op.priority)
  {
  }

  lemma DevicesStay(quantum: int, io: nat, priority: nat, body: Script, n: nat, op: Op)
    ensures SetUp(After(Boot(quantum, io, priority, body), n).s, quantum, io)
    ensures Rejected(After(Boot(quantum, io, priority, body), n).s, op) <==>
      (op.Wait? && io <= op.io) || (op.Signal? && io <= op.io) || (op.Fork? && 5 < op.priority)
  {
    hide Boot, After, Rejected;
    BootExactly(quantum, io, priority, body);
    RunKeepsSetup(Boot(quantum, io, priority, body), n);
    RejectedExactly(After(Boot(quantum, io, priority, body), n).s, quantum, io, op);
  }

  lemma AheadKeepsSetup(w: World, k: Token)
    requires TokenAt(w, k) && DecisionAhead(w, k).Some?
    ensures DecisionAhead(w, k).value.quantum == w.s.quantum
    ensures |DecisionAhead(w, k).value.waiting| == |w.s.waiting|
  {
    hide Closed, Labelled, Counted, Tick, MarkAsReady, WakeAll;
  }

  lemma CompleteKeepsSetup(w: World, k: Token)
    requires TokenAt(w, k)
    ensures Complete(w, k).s.quantum == w.s.quantum && |Complete(w, k).s.waiting| == |w.s.waiting|
  {
    hide TokenAt, DecisionAhead, Frames, Check;
    if DecisionAhead(w, k).Some? {
      AheadKeepsSetup(w, k);
      CheckExactly(DecisionAhead(w, k).value);
    }
  }

  /** In every world that any interleaving reaches, the quantum and the number of devices are those
      `so_init` was asked for, and a call is refused exactly for that reason. */
  lemma DevicesEverywhere(quantum: int, io: nat, priority: nat, body: Script, acts: seq<Actor>, w: World, op: Op)
    requires priority <= MAX_PRIORITY && Reaches(Initial(quantum, io, priority, body), acts, w)
    ensures SetUp(w.s, quantum, io)
    ensures Rejected(w.s, op) <==>
      (op.Wait? && io <= op.io) || (op.Signal? && io <= op.io) || (op.Fork? && 5 < op.priority)
  {
    hide TokenAt, Complete, Boot, Reaches, After, Rejected;
    var k, n := InterleavingsRefineSchedule(quantum, io, priority, body, acts, w);
    DevicesStay(quantum, io, priority, body, n, op);
    CompleteKeepsSetup(w, k);
    RejectedExactly(w.s, quantum, io, op);
  }

  // ----- A dispatch grants a full quantum -----

  lemma BusyLogs(w: World, t: Tid)
    requires TokenAt(w, Holder(t)) && w.pc[t] != Handler
    ensures t in w.pc
    ensures w.pc[t].Deciding? ==> Checkable(w.s) && StepBusy(w, t).s == Check(w.s).next
    ensures StepBusy(w, t).log == w.log + if w.pc[t].Deciding? then Announce(Check(w.s)) else []
  {
    hide Closed, Labelled, Counted, Placed, Check, Tick, MarkAsReady, WakeOne;
    BusyHolder(w, t);
  }

  lemma NoNews(log: seq<Event>)
    ensures log[|log|..] == []
  {
  }

  lemma BusyDispatches(w: World, t: Tid, w': World, x: Tid)
    requires TokenAt(w, Holder(t)) && w.pc[t] != Handler && w' == StepBusy(w, t)
    requires w.log <= w'.log && Dispatched(x) in w'.log[|w.log|..]
    ensures w'.s.current == Some(x) && x in w'.s.tcb && w'.s.tcb[x] == Tcb(Running, w.s.quantum)
  {
    hide TokenAt, StepBusy, Check, Closed;
    BusyLogs(w, t);
    NoNews(w.log);
    if w.pc[t].Deciding? {
      assert (w.log + Announce(Check(w.s)))[|w.log|..] == Announce(Check(w.s));
      SwitchGranted(w.s);
    }
  }

  lemma SwitchGranted(u: Sched)
    requires Checkable(u)
    ensures Check(u).next.current.Some? && Check(u).next.current.value in Check(u).next.tcb
    ensures Check(u).switched ==> Check(u).next.tcb[Check(u).next.current.value] == Tcb(Running, u.quantum)
  {
    hide Check;
    if Check(u).switched {
      SwitchGrantsQuantum(u);
    }
  }

  lemma MainDispatches(w: World, w': World, x: Tid)
    requires Closed(w.s) && MainFormed(w) && Enabled(w, Main) && w' == StepMain(w)
    requires w.log <= w'.log && Dispatched(x) in w'.log[|w.log|..]
    ensures w'.s.current == Some(x) && x in w'.s.tcb && w'.s.tcb[x] == Tcb(Running, w.s.quantum)
  {
    hide Check, MarkAsReady, Create, ReclaimOrder;
    if w.main.Checking? {
      SwitchGranted(w.s);
    }
  }

  lemma HandlerDispatchesNobody(w: World, t: Tid, w': World, x: Tid)
    requires TokenAt(w, Holder(t)) && w.pc[t] == Handler && w' == StepHandler(w, t) && w.log <= w'.log
    ensures Dispatched(x) !in w'.log[|w.log|..]
  {
    hide Closed, Labelled, Counted, Placed, Rejected, Terminate, Enrol, Create;
    BusyHolder(w, t);
  }

  lemma ParkedDispatchesNobody(w: World, t: Tid, x: Tid)
    requires Enabled(w, Thread(t)) && Parked(t, w.pc[t])
    ensures Dispatched(x) !in StepParked(w, t).log[|w.log|..]
  {
  }

  /** Whatever the interleaving, a step that logs the dispatch of a thread leaves that thread current,
      running, and with the whole quantum that `so_init` was asked for. */
  lemma DispatchGrantsQuantum(quantum: int, io: nat, priority: nat, body: Script, acts: seq<Actor>, w: World,
                              a: Actor, w': World, x: Tid)
    requires priority <= MAX_PRIORITY && Reaches(Initial(quantum, io, priority, body), acts, w)
    requires Valid(w) && Enabled(w, a) && w' == Advance(w, a)
    requires w.log <= w'.log && Dispatched(x) in w'.log[|w.log|..]
    ensures w'.s.current == Some(x) && x in w'.s.tcb && w'.s.tcb[x] == Tcb(Running, quantum)
  {
    hide TokenAt, Reaches, StepHandler, StepBusy, StepParked, StepMain, Rejected, Closed, Initial;
    DevicesEverywhere(quantum, io, priority, body, acts, w, Exec);
    InitialToken(quantum, io, priority, body);
    var k := RunToken(Initial(quantum, io, priority, body), ByMain, acts, w);
    match a
    case Main =>
      MainIsFormed(w);
      MainDispatches(w, w', x);
    case Thread(t) =>
      if w.pc[t].Start? || w.pc[t].Blocking? || w.pc[t].Exiting? {
        OutsideParked(w, t);
        ParkedDispatchesNobody(w, t, x);
      } else {
        BusyIsHolder(w, k, t);
        if w.pc[t] == Handler {
          HandlerDispatchesNobody(w, t, w', x);
        } else {
          BusyDispatches(w, t, w', x);
        }
      }
  }

  // ----- A thread keeps the processor while its quantum lasts -----

  /** Among these events the thread neither leaves nor waits, and nobody of a higher priority is
      dispatched. */
  ghost predicate StaysOn(news: seq<Event>, c: Tid, io: nat) {
    forall e :: e in news ==>
      && e != Event.Left(c)
      && (e.Called? && e.tid == c && e.op.Wait? ==> io <= e.op.io)
      && (e.Dispatched? ==> e.tid.priority <= c.priority)
  }

  lemma StaysOnBefore(news: seq<Event>, c: Tid, io: nat, some: seq<Event>)
    requires StaysOn(news, c, io) && forall e :: e in some ==> e in news
    ensures StaysOn(some, c, io)
  {
  }

  lemma CallIsLogged(m: Machine)
    requires WellFormed(m) && Schedules(m) && m.log <= Step(m).log
    ensures var c := m.s.current.value;
      match m.script[c]
      case Done => Event.Left(c) in Step(m).log[|m.log|..]
      case Then(op, _) => Called(c, op) in Step(m).log[|m.log|..]
  {
    hide Check, Prologue, Tick, Terminate, Announce;
    var c := m.s.current.value;
    match m.script[c]
    case Done => assert Step(m).log[|m.log|] == Event.Left(c);
    case Then(op, _) => assert Step(m).log[|m.log|] == Called(c, op);
  }

  lemma NewcomerStays(m: Machine)
    requires WellFormed(m) && Safe(m) && !LoneWait(m) && m.log <= Step(m).log
    requires StaysOn(Step(m).log[|m.log|..], m.s.current.value, |m.s.waiting|)
    ensures Step(m).s.current != m.s.current ==>
      Step(m).s.current.value.priority <= m.s.current.value.priority
  {
    hide Step, Safe, LoneWait;
    StepLog(m);
    if Step(m).s.current != m.s.current {
      assert Dispatched(Step(m).s.current.value) in Step(m).log[|m.log|..];
    }
  }

  lemma KeepsStep(m: Machine)
    requires WellFormed(m) && Safe(m) && !LoneWait(m) && m.log <= Step(m).log
    requires StaysOn(Step(m).log[|m.log|..], m.s.current.value, |m.s.waiting|)
    requires Schedules(m) ==> 2 <= ScheduleOrder.Left(m.s)
    ensures Step(m).s.current == m.s.current
    ensures ScheduleOrder.Left(Step(m).s) == ScheduleOrder.Left(m.s) - if Schedules(m) then 1 else 0
    ensures forall x :: Dispatched(x) !in Step(m).log[|m.log|..]
  {
    hide Step, AtCheck, Check, Safe, LoneWait, Push;
    StepIsCheck(m);
    StepLog(m);
    NewcomerStays(m);
    if Schedules(m) {
      CallIsLogged(m);
      CallerAtCheck(m);
      var u := AtCheck(m);
      CheckExactly(u);
    }
  }

  /** A thread with `q` units left keeps the processor for its next `q - 1` scheduler calls, whatever
      calls they are and whoever of its own or a lower priority becomes ready, and each costs it one. */
  lemma {:induction false} KeepsQuantum(m: Machine, n: nat)
    requires WellFormed(m) && Safe(m) && Disciplined(m, n) && m.log <= After(m, n).log
    requires StaysOn(After(m, n).log[|m.log|..], m.s.current.value, |m.s.waiting|)
    requires Calls(m, n) < ScheduleOrder.Left(m.s)
    ensures After(m, n).s.current == m.s.current
    ensures ScheduleOrder.Left(After(m, n).s) == ScheduleOrder.Left(m.s) - Calls(m, n)
    ensures forall x :: Dispatched(x) !in After(m, n).log[|m.log|..]
  {
    hide Step, Safe, LoneWait, Schedules, ScheduleOrder.Left, StaysOn, Closed;
    if n == 0 {
      NoSteps(m);
    } else {
      var before := After(m, n - 1);
      LogGrows(m, 0, n - 1);
      LogGrows(m, n - 1, n);
      StaysOnBefore(After(m, n).log[|m.log|..], m.s.current.value, |m.s.waiting|, before.log[|m.log|..]);
      StaysOnBefore(After(m, n).log[|m.log|..], m.s.current.value, |m.s.waiting|, After(m, n).log[|before.log|..]);
      KeepsQuantum(m, n - 1);
      RunSafe(m, n - 1);
      RunKeepsSetup(m, n - 1);
      KeepsStep(before);
      assert After(m, n).log[|m.log|..] == before.log[|m.log|..] + After(m, n).log[|before.log|..];
    }
  }

  /** The caller's quantum expires while only lower priorities are ready. */
  ghost predicate Refills(m: Machine)
    requires WellFormed(m)
  {
    Schedules(m) && CallerRunnable(m) && ScheduleOrder.Left(m.s) == 1
    && AtCheck(m).ready != [] && AtCheck(m).ready[0].priority < m.s.current.value.priority
  }

  lemma RefillStep(m: Machine)
    requires WellFormed(m) && Safe(m) && !LoneWait(m) && Refills(m)
    ensures Step(m).s.current == m.s.current && ScheduleOrder.Left(Step(m).s) == m.s.quantum
    ensures Step(m).s.ready == AtCheck(m).ready
  {
    hide Step, AtCheck, Check, Safe, LoneWait, Push;
    StepIsCheck(m);
    CallerAtCheck(m);
    RefillExactly(AtCheck(m));
  }

  /** After a refill the caller keeps the processor for its next `Q - 1` scheduler calls, against every
      newcomer of its own priority. */
  lemma RefillLasts(m: Machine, n: nat)
    requires WellFormed(m) && Safe(m) && Disciplined(m, n + 1) && Refills(m)
    requires Step(m).log <= After(Step(m), n).log
    requires StaysOn(After(Step(m), n).log[|Step(m).log|..], m.s.current.value, |m.s.waiting|)
    requires Calls(Step(m), n) < m.s.quantum
    ensures After(Step(m), n).s.current == m.s.current
    ensures ScheduleOrder.Left(After(Step(m), n).s) == m.s.quantum - Calls(Step(m), n)
  {
    hide Step, After, Safe, WellFormed, LoneWait, Refills, StaysOn, Calls, ScheduleOrder.Left;
    NoSteps(m);
    assert !LoneWait(After(m, 0));
    RefillStep(m);
    StepSafe(m);
    StepKeepsSetup(m);
    LaterDisciplined(m, n);
    KeepsQuantum(Step(m), n);
  }

  // ----- The same over all interleavings -----

  lemma KeepsQuantumSettled(quantum: int, io: nat, priority: nat, body: Script, acts: seq<Actor>, w: World,
                            more: seq<Actor>, w': World)
    requires 1 <= quantum && priority <= MAX_PRIORITY
    requires Reaches(Initial(quantum, io, priority, body), acts, w) && Settled(w)
    requires Reaches(w, more, w') && Settled(w')
    requires Disciplined(Boot(quantum, io, priority, body), |acts| + |more|)
    requires Closed(w.s) && w.s.current.Some? && w.log <= w'.log
    requires StaysOn(w'.log[|w.log|..], w.s.current.value, io) && Decisions(w, more) < ScheduleOrder.Left(w.s)
    ensures w'.s.current == w.s.current && Closed(w'.s)
    ensures ScheduleOrder.Left(w'.s) == ScheduleOrder.Left(w.s) - Decisions(w, more)
    ensures forall x :: Dispatched(x) !in w'.log[|w.log|..]
  {
    hide TokenAt, Complete, Boot, Reaches, After, Disciplined, Safe, Settled, Owed, Calls, Decisions, Initial,
      StaysOn, ScheduleOrder.Left, Closed;
    var m0 := Boot(quantum, io, priority, body);
    DisciplinedBefore(m0, |acts| + |more|, |acts|);
    var token, n0 := SafeSoFar(quantum, io, priority, body, acts, w);
    var token', n := RunCounts(w, token, more, w');
    DisciplinedAfter(m0, n0, |acts| + |more|, n);
    SettledCompletes(w, token);
    SettledCompletes(w', token');
    SettledOwesNothing(w, token);
    SettledOwesNothing(w', token');
    DevicesEverywhere(quantum, io, priority, body, acts, w, Exec);
    KeepsQuantum(Complete(w, token), n);
  }

  /** Only a decision logs a dispatch, and none is pending after it. */
  lemma DispatchSettles(w: World, k: Token, a: Actor, w': World, x: Tid)
    requires Valid(w) && Enabled(w, a) && TokenAt(w, k) && w' == Advance(w, a)
    requires w.log <= w'.log && Dispatched(x) in w'.log[|w.log|..]
    ensures Settled(w')
  {
    hide TokenAt, StepHandler, StepBusy, StepParked, StepMain, Settled;
    match a
    case Main =>
      MainIsFormed(w);
      if w.main.Checking? {
        MainCheckSettles(w, k);
      } else {
        MainLogsNothing(w, w');
      }
    case Thread(t) =>
      if w.pc[t].Start? || w.pc[t].Blocking? || w.pc[t].Exiting? {
        OutsideParked(w, t);
        ParkedDispatchesNobody(w, t, x);
      } else {
        BusyIsHolder(w, k, t);
        if w.pc[t] == Handler {
          HandlerDispatchesNobody(w, t, w', x);
        } else {
          BusyLogs(w, t);
          if w.pc[t].Deciding? {
            DecisionSettles(w, k, a);
          }
        }
      }
  }

  lemma MainCheckSettles(w: World, k: Token)
    requires Closed(w.s) && MainFormed(w) && Enabled(w, Main) && w.main.Checking? && TokenAt(w, k)
    ensures Settled(StepMain(w))
  {
    hide Closed, Labelled, Counted, Check;
    assert k == ByMain;
    assert forall t :: t in w.pc ==> Parked(t, w.pc[t]);
  }

  lemma MainLogsNothing(w: World, w': World)
    requires Closed(w.s) && MainFormed(w) && Enabled(w, Main) && w' == StepMain(w) && !w.main.Checking?
    ensures w'.log == w.log
  {
    hide MarkAsReady, Create, ReclaimOrder;
  }

  /** The dual of the round-robin bound, over all interleavings: a thread with `q` units left is not
      taken off the processor before threads have run `scheduler_check` `q` times, unless it waits,
      leaves, or a higher priority is dispatched. */
  lemma {:induction false} KeepsQuantumInEveryInterleaving(
      quantum: int, io: nat, priority: nat, body: Script, acts: seq<Actor>, w: World, more: seq<Actor>, w': World,
      x: Tid)
    requires 1 <= quantum && priority <= MAX_PRIORITY
    requires Reaches(Initial(quantum, io, priority, body), acts, w) && Settled(w) && Reaches(w, more, w')
    requires Disciplined(Boot(quantum, io, priority, body), |acts| + |more|)
    requires Closed(w.s) && w.s.current.Some? && w.log <= w'.log
    requires StaysOn(w'.log[|w.log|..], w.s.current.value, io) && Decisions(w, more) < ScheduleOrder.Left(w.s)
    ensures Dispatched(x) !in w'.log[|w.log|..]
    decreases |more|
  {
    hide TokenAt, Boot, Reaches, Disciplined, Settled, Decisions, StaysOn, ScheduleOrder.Left, Closed, Initial, Advance;
    if Settled(w') {
      KeepsQuantumSettled(quantum, io, priority, body, acts, w, more, w');
    } else {
      RunNotEmpty(w, more, w');
      InitialToken(quantum, io, priority, body);
      var token := RunToken(Initial(quantum, io, priority, body), ByMain, acts, w);
      var w1, token1 := LastStep(w, token, more, w');
      var last := |more| - 1;
      if Decides(w1, more[last]) {
        DecisionSettles(w1, token1, more[last]);
      }
      RunLogs(w, token, more[..last], w1);
      AdvanceLogs(w1, token1, more[last]);
      StaysOnBefore(w'.log[|w.log|..], w.s.current.value, io, w1.log[|w.log|..]);
      DisciplinedBefore(Boot(quantum, io, priority, body), |acts| + |more|, |acts| + last);
      KeepsQuantumInEveryInterleaving(quantum, io, priority, body, acts, w, more[..last], w1, x);
      if Dispatched(x) in w'.log[|w1.log|..] {
        DispatchSettles(w1, token1, more[last], w', x);
      }
      assert w'.log[|w.log|..] == w1.log[|w.log|..] + w'.log[|w1.log|..];
    }
  }

  lemma {:induction false} RunLogs(w: World, k: Token, acts: seq<Actor>, w': World)
    requires TokenAt(w, k) && Reaches(w, acts, w')
    ensures w.log <= w'.log
    decreases |acts|
  {
    hide TokenAt, Advance, NextToken;
    if acts != [] {
      AdvanceMovesToken(w, k, acts[0]);
      AdvanceLogs(w, k, acts[0]);
      RunLogs(Advance(w, acts[0]), NextToken(w, k, acts[0]), acts[1..], w');
    }
  }

  /** The world right after a dispatch. */
  lemma DispatchState(quantum: int, io: nat, priority: nat, body: Script, acts: seq<Actor>, w: World,
                      a: Actor, w1: World, c: Tid)
    requires priority <= MAX_PRIORITY
    requires Reaches(Initial(quantum, io, priority, body), acts, w)
    requires Valid(w) && Enabled(w, a) && w1 == Advance(w, a)
    requires w.log <= w1.log && Dispatched(c) in w1.log[|w.log|..]
    ensures Reaches(Initial(quantum, io, priority, body), acts + [a], w1) && Settled(w1)
    ensures Closed(w1.s) && w1.s.current == Some(c) && ScheduleOrder.Left(w1.s) == quantum
  {
    hide TokenAt, Reaches, Settled, Closed, Initial, Advance;
    var w0 := Initial(quantum, io, priority, body);
    DispatchGrantsQuantum(quantum, io, priority, body, acts, w, a, w1, c);
    InitialToken(quantum, io, priority, body);
    var k := RunToken(w0, ByMain, acts, w);
    DispatchSettles(w, k, a, w1, c);
    RunExtends(w0, ByMain, acts, w, a);
    AdvanceMovesToken(w, k, a);
    TokenCloses(w1, NextToken(w, k, a));
  }

  /** In particular a thread that is dispatched keeps the processor for its next `Q - 1` scheduler calls,
      in whatever way the run goes on. */
  lemma DispatchLasts(quantum: int, io: nat, priority: nat, body: Script, acts: seq<Actor>, w: World,
                      a: Actor, w1: World, c: Tid, more: seq<Actor>, w': World, x: Tid)
    requires 1 <= quantum && priority <= MAX_PRIORITY
    requires Reaches(Initial(quantum, io, priority, body), acts, w)
    requires Valid(w) && Enabled(w, a) && w1 == Advance(w, a)
    requires w.log <= w1.log && Dispatched(c) in w1.log[|w.log|..]
    requires Reaches(w1, more, w') && w1.log <= w'.log
    requires Disciplined(Boot(quantum, io, priority, body), |acts| + 1 + |more|)
    requires StaysOn(w'.log[|w1.log|..], c, io) && Decisions(w1, more) < quantum
    ensures Dispatched(x) !in w'.log[|w1.log|..]
  {
    hide *;
    DispatchState(quantum, io, priority, body, acts, w, a, w1, c);
    assert |acts + [a]| == |acts| + 1;
    KeepsQuantumInEveryInterleaving(quantum, io, priority, body, acts + [a], w1, more, w', x);
  }

  lemma TokenCloses(w: World, k: Token)
    requires TokenAt(w, k)
    ensures Closed(w.s)
  {
    hide Closed;
  }
}
