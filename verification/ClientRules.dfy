/** The rules a program has to keep, shown by programs that break them: a thread that waits with
    nobody ready, a thread nobody signals, and a thread that outlives its quantum while it is alone. */
module ClientRules {
  import opened StableOrder
  import opened Scheduling
  import opened Conservation
  import opened SequentialMachine
  import opened MachineSafety
  import opened ScheduleOrder
  import opened Interleaving
  import opened MutualExclusion
  import opened Refinement
  import opened Completion

  const FIRST: Tid := Tid(0, 0)
  const SECOND: Tid := Tid(1, 0)

  /** The first machine state of a program. */
  lemma BootState(quantum: int, io: nat, priority: nat, body: Script)
    ensures var m, t := Boot(quantum, io, priority, body), Tid(0, priority);
      && m.s == Sched(quantum, Some(t), [], [], Init(quantum, io).waiting, map[t := Tcb(Running, quantum)], 1)
      && m.script == map[t := body] && m.frame == map[t := Fresh]
  {
    var t := Tid(0, priority);
    var u := MarkAsReady(Create(Init(quantum, io), priority), t);
    assert u.ready == [t];
    assert u.tcb == map[t := Tcb(Ready, quantum)];
    assert u.ready[1..] == [];
  }

  lemma NextStep(m: Machine, n: nat)
    requires WellFormed(m)
    ensures After(m, n + 1) == Step(After(m, n))
  {
  }

  lemma Begins(m: Machine)
    requires WellFormed(m) && m.frame[m.s.current.value].Fresh?
    ensures Step(m).s == m.s && Step(m).script == m.script
    ensures Step(m).frame == m.frame[m.s.current.value := Live]
  {
  }

  /** The state in which the first handler starts. */
  lemma StartState(quantum: int, io: nat, priority: nat, body: Script)
    ensures var m, t := After(Boot(quantum, io, priority, body), 1), Tid(0, priority);
      && m.s == Sched(quantum, Some(t), [], [], Init(quantum, io).waiting, map[t := Tcb(Running, quantum)], 1)
      && m.script == map[t := body] && m.frame == map[t := Live]
  {
    hide Boot, Step, After, WellFormed;
    var m := Boot(quantum, io, priority, body);
    BootState(quantum, io, priority, body);
    NoSteps(m);
    Begins(m);
    NextStep(m, 0);
  }

  /** A call that is accepted and forks nothing. */
  lemma PlainCall(m: Machine, op: Op, rest: Script)
    requires WellFormed(m) && m.frame[m.s.current.value] == Live && m.script[m.s.current.value] == Then(op, rest)
    requires !Rejected(m.s, op) && !op.Fork?
    ensures Step(m).s == Check(Tick(Prologue(m.s, op))).next
    ensures Step(m).frame == m.frame[m.s.current.value := Pending(Answer(m.s, op))]
    ensures Step(m).script == m.script[m.s.current.value := rest]
  {
    hide Check, Tick, Prologue, Closed;
  }

  lemma PushEmpty(t: Tid)
    ensures Push([], t) == [t]
  {
  }

  // ----- A lone wait -----

  /** Waits for device 0 with nobody ready, and signals that device itself. */
  const SELF_SIGNAL: Script := Then(Wait(0), Then(Signal(0), Done))

  ghost function LoneState(status: Status, left: int, ready: seq<Tid>, finished: seq<Tid>, queue: seq<Tid>): Sched {
    Sched(3, Some(FIRST), ready, finished, [queue], map[FIRST := Tcb(status, left)], 1)
  }

  lemma LoneBoots(rest: Script)
    ensures var m := After(Boot(3, 1, 0, Then(Wait(0), rest)), 1);
      && m.s == LoneState(Running, 3, [], [], []) && m.frame == map[FIRST := Live]
      && m.script == map[FIRST := Then(Wait(0), rest)]
  {
    hide Boot, After;
    StartState(3, 1, 0, Then(Wait(0), rest));
    assert Init(3, 1).waiting == [[]];
  }

  lemma LoneEnrols(s: Sched)
    requires s == LoneState(Running, 3, [], [], [])
    ensures Closed(s) && Check(Tick(Enrol(s, 0))).next == LoneState(Waiting, 2, [], [], [FIRST])
    ensures !Check(Tick(Enrol(s, 0))).switched
  {
    hide Push, MarkAsReady, PlanNext, Retire;
    PushEmpty(FIRST);
    assert Enrol(s, 0) == LoneState(Waiting, 3, [], [], [FIRST]);
    assert Tick(Enrol(s, 0)) == LoneState(Waiting, 2, [], [], [FIRST]);
  }

  lemma LoneWaits(m: Machine, rest: Script)
    requires m.s == LoneState(Running, 3, [], [], []) && m.frame == map[FIRST := Live]
    requires m.script == map[FIRST := Then(Wait(0), rest)]
    ensures WellFormed(m) && LoneWait(m)
    ensures Step(m).s == LoneState(Waiting, 2, [], [], [FIRST])
    ensures Step(m).frame == map[FIRST := Pending(Code(0))] && Step(m).script == map[FIRST := rest]
  {
    hide Check, Enrol, Tick, Step;
    LoneEnrols(m.s);
    PlainCall(m, Wait(0), rest);
  }

  lemma SelfSignalWakes(s: Sched)
    requires s == LoneState(Waiting, 2, [], [], [FIRST])
    ensures Closed(s) && WakeAll(s, 0) == LoneState(Ready, 2, [FIRST], [], [])
  {
    hide Push, WakeAll;
    PushEmpty(FIRST);
    assert [FIRST][1..] == [];
    assert WakeOne(s, 0) == LoneState(Ready, 2, [FIRST], [], []);
    WakeAllUnfolds(s, 0);
    WakeAllUnfolds(WakeOne(s, 0), 0);
  }

  lemma SelfSignalSignals(m: Machine)
    requires m.s == LoneState(Waiting, 2, [], [], [FIRST]) && m.frame == map[FIRST := Live]
    requires m.script == map[FIRST := SELF_SIGNAL.rest]
    ensures WellFormed(m)
    ensures Step(m).s == LoneState(Ready, 1, [FIRST], [], [])
    ensures Step(m).frame == map[FIRST := Pending(Code(1))]
    ensures Step(m).script == map[FIRST := Done]
  {
    hide WakeAll, Step, PlanNext, MarkAsReady, Retire;
    SelfSignalWakes(m.s);
    PlainCall(m, Signal(0), Done);
    assert Tick(WakeAll(m.s, 0)) == LoneState(Ready, 1, [FIRST], [], []);
  }

  lemma SelfSignalLeaves(m: Machine)
    requires m.s == LoneState(Ready, 1, [FIRST], [], []) && m.frame == map[FIRST := Live]
    requires m.script == map[FIRST := Done]
    ensures WellFormed(m)
    ensures Step(m).s == LoneState(Running, 3, [], [FIRST], [])
    ensures Resting(Step(m))
  {
    hide Push, MarkAsReady, WakeAll, Enrol, Slot;
    PushEmpty(FIRST);
    assert [FIRST][1..] == [];
    assert Terminate(m.s, FIRST) == LoneState(Terminated, 1, [FIRST], [], []);
  }

  lemma Resumes(m: Machine)
    requires WellFormed(m) && m.frame[m.s.current.value].Pending?
    ensures Step(m).s == m.s && Step(m).script == m.script
    ensures Step(m).frame == m.frame[m.s.current.value := Live]
  {
  }

  /** The state of the waiting thread when its call returned. */
  lemma LoneReturns(rest: Script)
    ensures var m := After(Boot(3, 1, 0, Then(Wait(0), rest)), 3);
      && m.s == LoneState(Waiting, 2, [], [], [FIRST]) && m.frame == map[FIRST := Live]
      && m.script == map[FIRST := rest]
  {
    hide Step, Boot, LoneWait, LoneState, After, WellFormed;
    var m := Boot(3, 1, 0, Then(Wait(0), rest));
    LoneBoots(rest);
    LoneWaits(After(m, 1), rest);
    NextStep(m, 1);
    LoneCurrent(After(m, 2));
    Resumes(After(m, 2));
    NextStep(m, 2);
  }

  lemma LoneCurrent(m: Machine)
    requires exists status, left, ready, finished, queue :: m.s == LoneState(status, left, ready, finished, queue)
    ensures m.s.current == Some(FIRST)
  {
  }

  lemma SelfSignalRests() returns (n: nat)
    ensures After(Boot(3, 1, 0, SELF_SIGNAL), n).s == LoneState(Running, 3, [], [FIRST], [])
    ensures Resting(After(Boot(3, 1, 0, SELF_SIGNAL), n))
  {
    hide Step, Boot, LoneWait, LoneState, After, WellFormed;
    var m := Boot(3, 1, 0, SELF_SIGNAL);
    LoneReturns(SELF_SIGNAL.rest);
    SelfSignalSignals(After(m, 3));
    NextStep(m, 3);
    LoneCurrent(After(m, 4));
    Resumes(After(m, 4));
    NextStep(m, 4);
    SelfSignalLeaves(After(m, 5));
    NextStep(m, 5);
    n := 6;
  }

  /** A lone wait can hang the program: the thread is still current while it is queued, wakes itself,
      and when it terminates the last permit goes to the thread that just left. However the threads
      are interleaved, `end` is never posted and `so_end` blocks forever. */
  lemma LoneWaitHangs(acts: seq<Actor>, w: World)
    requires Reaches(Initial(3, 1, 0, SELF_SIGNAL), acts, w) && Stuck(w)
    ensures w.main.AwaitingEnd? && w.end == 0
  {
    hide TokenAt, Complete, Boot, Stuck, Resting, Reaches, After, Frames, Initial, WellFormed;
    var k, n := InterleavingsRefineSchedule(3, 1, 0, SELF_SIGNAL, acts, w);
    StuckIsOver(w, k);
    var rest := SelfSignalRests();
    RestsOnce(Boot(3, 1, 0, SELF_SIGNAL), n, rest);
    EndReachedExactly(w, k);
  }

  /** Waits for device 0 with nobody ready, and leaves. */
  const LEAVES_QUEUED: Script := Then(Wait(0), Done)

  lemma QueuedLeaves(m: Machine)
    requires m.s == LoneState(Waiting, 2, [], [], [FIRST]) && m.frame == map[FIRST := Live]
    requires m.script == map[FIRST := Done]
    ensures WellFormed(m)
    ensures Step(m).s == LoneState(Terminated, 2, [], [], [FIRST]) && Resting(Step(m))
  {
    hide Push, MarkAsReady, PlanNext, Retire, Call, Refuse, Resume;
    assert Terminate(m.s, FIRST) == LoneState(Terminated, 2, [], [], [FIRST]);
  }

  lemma LeavesQueuedRests() returns (n: nat)
    ensures After(Boot(3, 1, 0, LEAVES_QUEUED), n).s == LoneState(Terminated, 2, [], [], [FIRST])
    ensures Resting(After(Boot(3, 1, 0, LEAVES_QUEUED), n))
  {
    hide Step, Boot, LoneState, After, WellFormed;
    var m := Boot(3, 1, 0, LEAVES_QUEUED);
    LoneReturns(Done);
    QueuedLeaves(After(m, 3));
    NextStep(m, 3);
    n := 4;
  }

  /** A lone wait can also have a thread freed twice: it is current and still queued when `end` is
      posted, so `so_end` joins and frees it once for each place, under every interleaving. */
  lemma LoneWaitFreesTwice(acts: seq<Actor>, w: World)
    requires Reaches(Initial(3, 1, 0, LEAVES_QUEUED), acts, w) && Stuck(w)
    ensures w.main.Reclaiming? && w.main.freed == [FIRST, FIRST] && w.main.todo == []
  {
    hide TokenAt, Complete, Boot, Resting, Reaches, After, Frames, Initial, WellFormed, Stuck;
    var k, n := InterleavingsRefineSchedule(3, 1, 0, LEAVES_QUEUED, acts, w);
    StuckIsOver(w, k);
    var rest := LeavesQueuedRests();
    RestsOnce(Boot(3, 1, 0, LEAVES_QUEUED), n, rest);
    EndReachedExactly(w, k);
    InitialToken(3, 1, 0, LEAVES_QUEUED);
    InitialReclaimsAll(3, 1, 0, LEAVES_QUEUED);
    RunReclaimsAll(Initial(3, 1, 0, LEAVES_QUEUED), ByMain, acts, w);
    LeavesQueuedOrder(w.s);
    assert forall t :: t in w.main.todo ==> t in w.main.freed + w.main.todo;
    ReclaimedWhenExited(w);
    assert w.main.freed + [] == w.main.freed;
  }

  lemma ReclaimedWhenExited(w: World)
    requires Stuck(w) && w.main.Reclaiming? && forall t :: t in w.main.todo ==> t in w.pc && w.pc[t].Exited?
    ensures w.main.todo == []
  {
    assert !Enabled(w, Main);
  }

  lemma LeavesQueuedOrder(s: Sched)
    requires s == LoneState(Terminated, 2, [], [], [FIRST])
    ensures ReclaimOrder(s) == [FIRST, FIRST]
  {
    assert Flatten([[FIRST]]) == [FIRST] + Flatten([[FIRST]][1..]);
    assert [[FIRST]][1..] == [];
  }

  // ----- A thread nobody signals -----

  const WAITER: Tid := Tid(1, 1)

  /** Forks a thread of higher priority that waits for device 0. */
  const LEAVES_WAITER: Script := Then(Fork(1, Then(Wait(0), Done)), Done)

  lemma LeavesWaiterBoots()
    ensures var m := After(Boot(1, 1, 0, LEAVES_WAITER), 1);
      && m.s == Sched(1, Some(FIRST), [], [], [[]], map[FIRST := Tcb(Running, 1)], 1)
      && m.frame == map[FIRST := Live] && m.script == map[FIRST := LEAVES_WAITER]
  {
    hide Boot, After;
    StartState(1, 1, 0, LEAVES_WAITER);
    assert Init(1, 1).waiting == [[]];
  }

  ghost function WaiterState(current: Tid, ready: seq<Tid>, queue: seq<Tid>, first: Tcb, waiter: Tcb): Sched {
    Sched(1, Some(current), ready, [], [queue], map[FIRST := first, WAITER := waiter], 2)
  }

  lemma LeavesWaiterCreates(s: Sched)
    requires s == Sched(1, Some(FIRST), [], [], [[]], map[FIRST := Tcb(Running, 1)], 1)
    ensures Closed(s)
    ensures Create(s, 1) == WaiterState(FIRST, [], [], Tcb(Running, 1), Tcb(Ready, 1))
  {
  }

  lemma LeavesWaiterMarks(s: Sched)
    requires s == WaiterState(FIRST, [], [], Tcb(Running, 1), Tcb(Ready, 1)) && Closed(s) && WAITER in s.tcb
    ensures MarkAsReady(s, WAITER) == WaiterState(FIRST, [WAITER], [], Tcb(Running, 1), Tcb(Ready, 1))
  {
    hide Push, Closed;
    PushEmpty(WAITER);
  }

  lemma LeavesWaiterTicks(s: Sched)
    requires s == WaiterState(FIRST, [WAITER], [], Tcb(Running, 1), Tcb(Ready, 1)) && Closed(s)
    ensures Tick(s) == WaiterState(FIRST, [WAITER], [], Tcb(Running, 0), Tcb(Ready, 1))
  {
    hide Closed;
  }

  lemma LeavesWaiterForked(s: Sched)
    requires s == Sched(1, Some(FIRST), [], [], [[]], map[FIRST := Tcb(Running, 1)], 1)
    ensures Closed(s) && WAITER in Create(s, 1).tcb && MarkAsReady(Create(s, 1), WAITER).current.Some?
    ensures Tick(MarkAsReady(Create(s, 1), WAITER)) == WaiterState(FIRST, [WAITER], [], Tcb(Running, 0), Tcb(Ready, 1))
  {
    hide Tick, MarkAsReady, Create, Closed;
    LeavesWaiterCreates(s);
    LeavesWaiterMarks(Create(s, 1));
    LeavesWaiterTicks(MarkAsReady(Create(s, 1), WAITER));
  }

  lemma LeavesWaiterMarksFirst(u: Sched)
    requires u == WaiterState(FIRST, [WAITER], [], Tcb(Running, 0), Tcb(Ready, 1)) && Closed(u) && FIRST in u.tcb
    ensures MarkAsReady(u, FIRST) == WaiterState(FIRST, [WAITER, FIRST], [], Tcb(Ready, 0), Tcb(Ready, 1))
  {
    hide Push, Closed;
    PushKeepsHead([WAITER], FIRST);
    PushContents([WAITER], FIRST);
    PushEmpty(FIRST);
    assert [WAITER][1..] == [];
    assert Push([WAITER], FIRST) == [WAITER] + Push([WAITER], FIRST)[1..];
  }

  lemma LeavesWaiterPlans(u: Sched)
    requires u == WaiterState(FIRST, [WAITER, FIRST], [], Tcb(Ready, 0), Tcb(Ready, 1)) && Closed(u)
    ensures PlanNext(u) == WaiterState(WAITER, [FIRST], [], Tcb(Ready, 0), Tcb(Running, 1))
  {
    hide Closed;
    assert [WAITER, FIRST][1..] == [FIRST];
  }

  lemma LeavesWaiterPreempted(u: Sched)
    requires u == WaiterState(FIRST, [WAITER], [], Tcb(Running, 0), Tcb(Ready, 1)) && Checkable(u)
    ensures Check(u).next == WaiterState(WAITER, [FIRST], [], Tcb(Ready, 0), Tcb(Running, 1))
  {
    hide MarkAsReady, PlanNext, Push, Closed;
    assert FIRST in u.tcb;
    LeavesWaiterMarksFirst(u);
    LeavesWaiterPlans(MarkAsReady(u, FIRST));
  }

  lemma LeavesWaiterForks(m: Machine)
    requires m.s == Sched(1, Some(FIRST), [], [], [[]], map[FIRST := Tcb(Running, 1)], 1)
    requires m.frame == map[FIRST := Live] && m.script == map[FIRST := LEAVES_WAITER]
    ensures WellFormed(m)
    ensures Step(m).s == WaiterState(WAITER, [FIRST], [], Tcb(Ready, 0), Tcb(Running, 1))
    ensures Step(m).frame == map[FIRST := Pending(Child(WAITER)), WAITER := Fresh]
    ensures Step(m).script == map[FIRST := Done, WAITER := Then(Wait(0), Done)]
  {
    hide MarkAsReady, Tick, Create, Check, Push, Closed;
    LeavesWaiterForked(m.s);
    LeavesWaiterPreempted(Tick(MarkAsReady(Create(m.s, 1), WAITER)));
  }

  lemma LeavesWaiterEnrols(s: Sched)
    requires s == WaiterState(WAITER, [FIRST], [], Tcb(Ready, 0), Tcb(Running, 1)) && Closed(s)
    ensures Enrol(s, 0) == WaiterState(WAITER, [FIRST], [WAITER], Tcb(Ready, 0), Tcb(Waiting, 1))
  {
    hide Push, Closed;
    PushEmpty(WAITER);
  }

  lemma LeavesWaiterTicksAgain(s: Sched)
    requires s == WaiterState(WAITER, [FIRST], [WAITER], Tcb(Ready, 0), Tcb(Waiting, 1)) && Closed(s)
    ensures Tick(s) == WaiterState(WAITER, [FIRST], [WAITER], Tcb(Ready, 0), Tcb(Waiting, 0))
  {
    hide Closed;
  }

  lemma LeavesWaiterBlocks(u: Sched)
    requires u == WaiterState(WAITER, [FIRST], [WAITER], Tcb(Ready, 0), Tcb(Waiting, 0)) && Checkable(u)
    ensures Check(u).next == WaiterState(FIRST, [], [WAITER], Tcb(Running, 1), Tcb(Waiting, 0))
  {
    hide Closed, MarkAsReady, Retire;
    assert [FIRST][1..] == [];
  }

  lemma LeavesWaiterWaits(m: Machine)
    requires m.s == WaiterState(WAITER, [FIRST], [], Tcb(Ready, 0), Tcb(Running, 1))
    requires m.frame == map[FIRST := Pending(Child(WAITER)), WAITER := Live]
    requires m.script == map[FIRST := Done, WAITER := Then(Wait(0), Done)] && WellFormed(m)
    ensures Step(m).s == WaiterState(FIRST, [], [WAITER], Tcb(Running, 1), Tcb(Waiting, 0))
    ensures Step(m).frame == map[FIRST := Pending(Child(WAITER)), WAITER := Pending(Code(0))]
    ensures Step(m).script == map[FIRST := Done, WAITER := Done]
  {
    hide Enrol, Tick, Check, Push, Closed;
    LeavesWaiterEnrols(m.s);
    LeavesWaiterTicksAgain(Enrol(m.s, 0));
    LeavesWaiterBlocks(Tick(Enrol(m.s, 0)));
  }

  lemma LeavesWaiterLeaves(m: Machine)
    requires m.s == WaiterState(FIRST, [], [WAITER], Tcb(Running, 1), Tcb(Waiting, 0))
    requires m.frame == map[FIRST := Live, WAITER := Pending(Code(0))]
    requires m.script == map[FIRST := Done, WAITER := Done]
    ensures WellFormed(m) && Resting(Step(m))
    ensures Step(m).s.tcb[FIRST].status == Terminated && Step(m).s.current == Some(FIRST)
    ensures WAITER in Step(m).frame && Step(m).frame[WAITER] == Pending(Code(0)) && Step(m).s.waiting == [[WAITER]]
    ensures Step(m).s.ready == [] && Step(m).s.finished == []
  {
  }

  /** The state of the first thread when its fork returned, the second one being blocked. */
  lemma LeavesWaiterReturns()
    ensures var m := After(Boot(1, 1, 0, LEAVES_WAITER), 5);
      && m.s == WaiterState(FIRST, [], [WAITER], Tcb(Running, 1), Tcb(Waiting, 0))
      && m.frame == map[FIRST := Live, WAITER := Pending(Code(0))] && m.script == map[FIRST := Done, WAITER := Done]
  {
    hide Step, Boot, WaiterState, After, WellFormed;
    var m := Boot(1, 1, 0, LEAVES_WAITER);
    LeavesWaiterBoots();
    LeavesWaiterForks(After(m, 1));
    NextStep(m, 1);
    WaiterCurrent(After(m, 2).s, WAITER, [FIRST], [], Tcb(Ready, 0), Tcb(Running, 1));
    Begins(After(m, 2));
    NextStep(m, 2);
    LeavesWaiterWaits(After(m, 3));
    NextStep(m, 3);
    WaiterCurrent(After(m, 4).s, FIRST, [], [WAITER], Tcb(Running, 1), Tcb(Waiting, 0));
    Resumes(After(m, 4));
    NextStep(m, 4);
  }

  lemma WaiterCurrent(s: Sched, current: Tid, ready: seq<Tid>, queue: seq<Tid>, first: Tcb, waiter: Tcb)
    requires s == WaiterState(current, ready, queue, first, waiter)
    ensures s.current == Some(current)
  {
  }

  lemma LeavesWaiterRests() returns (n: nat)
    ensures var m := After(Boot(1, 1, 0, LEAVES_WAITER), n);
      && Resting(m) && m.s.current == Some(FIRST) && m.s.tcb[FIRST].status == Terminated
      && WAITER in m.frame && m.frame[WAITER] == Pending(Code(0))
      && m.s.waiting == [[WAITER]] && m.s.ready == [] && m.s.finished == []
  {
    hide Step, Boot, WaiterState, After, WellFormed, Resting;
    LeavesWaiterReturns();
    LeavesWaiterLeaves(After(Boot(1, 1, 0, LEAVES_WAITER), 5));
    NextStep(Boot(1, 1, 0, LEAVES_WAITER), 5);
    n := 6;
  }

  /** A thread that nobody signals is never freed: however the program is interleaved, `so_end` gets
      past its semaphore, frees the other thread and then blocks in the join of the waiting one. */
  lemma WaiterNeverFreed(acts: seq<Actor>, w: World)
    requires Reaches(Initial(1, 1, 0, LEAVES_WAITER), acts, w) && Stuck(w)
    ensures w.main.Reclaiming? && WAITER in w.pc && w.pc[WAITER].Blocking?
    ensures w.main.freed == [FIRST] && w.main.todo == [WAITER]
  {
    hide TokenAt, Complete, Boot, Stuck, Resting, Reaches, After, Frames, Initial, WellFormed;
    var k, n := InterleavingsRefineSchedule(1, 1, 0, LEAVES_WAITER, acts, w);
    StuckIsOver(w, k);
    var rest := LeavesWaiterRests();
    RestsOnce(Boot(1, 1, 0, LEAVES_WAITER), n, rest);
    EndReachedExactly(w, k);
    InitialToken(1, 1, 0, LEAVES_WAITER);
    InitialReclaimsAll(1, 1, 0, LEAVES_WAITER);
    RunReclaimsAll(Initial(1, 1, 0, LEAVES_WAITER), ByMain, acts, w);
    LeavesWaiterOrder(w.s);
    PendingBlocks(w, k, WAITER);
    CurrentFreed(w, k);
    TwoReclaimed(w.main.freed, w.main.todo);
  }

  lemma LeavesWaiterOrder(s: Sched)
    requires s.current == Some(FIRST) && s.ready == [] && s.finished == [] && s.waiting == [[WAITER]]
    ensures ReclaimOrder(s) == [FIRST, WAITER]
  {
    assert Flatten([[WAITER]]) == [WAITER] + Flatten([[WAITER]][1..]);
    assert [[WAITER]][1..] == [];
  }

  /** When nobody can move, the thread that ran last has been freed. */
  lemma CurrentFreed(w: World, k: Token)
    requires TokenAt(w, k) && Stuck(w) && ReclaimsAll(w) && w.main.Reclaiming?
    ensures w.s.current.Some? && w.main.freed != [] && w.main.freed[0] == w.s.current.value
  {
    hide Closed, Labelled, Counted, Complete, Flatten;
    StuckIsOver(w, k);
    assert ReclaimOrder(w.s)[0] == w.s.current.value;
    FrontOrBack(w.main.freed, w.main.todo);
    assert !Enabled(w, Main);
  }

  lemma FrontOrBack(a: seq<Tid>, b: seq<Tid>)
    requires a + b != []
    ensures if a == [] then b != [] && b[0] == (a + b)[0] else a[0] == (a + b)[0]
  {
  }

  lemma TwoReclaimed(freed: seq<Tid>, todo: seq<Tid>)
    requires freed + todo == [FIRST, WAITER] && freed != []
    ensures (freed == [FIRST] && todo == [WAITER]) || WAITER in freed
  {
    assert |freed| + |todo| == 2;
    if |freed| == 2 {
      assert freed[1] == (freed + todo)[1];
    } else {
      assert freed[0] == (freed + todo)[0] && todo[0] == (freed + todo)[1];
    }
  }

  /** When nobody can move, a thread inside a call is blocked, and neither freed nor about to be. */
  lemma PendingBlocks(w: World, k: Token, t: Tid)
    requires TokenAt(w, k) && Stuck(w) && ReclaimsAll(w) && w.main.Reclaiming?
    requires t in Frames(w.s, w.pc) && Frames(w.s, w.pc)[t].Pending? && t in ReclaimOrder(w.s)
    ensures t in w.pc && w.pc[t].Blocking? && t !in w.main.freed && w.main.todo != []
  {
    hide Closed, Labelled, Counted, Complete, Stuck, ReclaimOrder;
    StuckIsOver(w, k);
    FramesAt(w.s, w.pc, t);
    assert Parked(t, w.pc[t]);
    assert t in w.main.freed + w.main.todo;
  }

  // ----- A quantum spent alone -----

  ghost function SoloState(left: int): Sched {
    Sched(1, Some(FIRST), [], [], [], map[FIRST := Tcb(Running, left)], 1)
  }

  ghost function RivalState(): Sched {
    Sched(1, Some(FIRST), [SECOND], [], [], map[FIRST := Tcb(Running, -1), SECOND := Tcb(Ready, 1)], 2)
  }

  lemma SoloBoots(rest: Script, child: Script)
    ensures var body := Then(Exec, Then(Fork(0, child), rest));
      && After(Boot(1, 0, 0, body), 1).s == SoloState(1)
      && After(Boot(1, 0, 0, body), 1).frame == map[FIRST := Live]
      && After(Boot(1, 0, 0, body), 1).script == map[FIRST := body]
  {
    hide Boot, After;
    StartState(1, 0, 0, Then(Exec, Then(Fork(0, child), rest)));
    assert Init(1, 0).waiting == [];
  }

  lemma SoloSpends(m: Machine)
    requires m.s == SoloState(1) && m.frame == map[FIRST := Live] && m.script.Keys == {FIRST}
    requires m.script[FIRST].Then? && m.script[FIRST].op == Exec
    ensures WellFormed(m) && Overruns(m)
    ensures Step(m).s == SoloState(0) && Step(m).frame == map[FIRST := Pending(Void)]
    ensures Step(m).script == map[FIRST := m.script[FIRST].rest]
  {
    assert Tick(m.s) == SoloState(0);
    assert Tick(Prologue(m.s, Exec)) == Tick(m.s);
  }

  lemma SoloForked(s: Sched)
    requires s == SoloState(0)
    ensures Closed(s) && Tick(MarkAsReady(Create(s, 0), SECOND)) == RivalState()
    ensures Checkable(RivalState()) && Check(RivalState()).next == RivalState()
  {
    hide Push, PlanNext, Retire;
    PushEmpty(SECOND);
    var u := MarkAsReady(Create(s, 0), SECOND);
    assert Create(s, 0).tcb == map[FIRST := Tcb(Running, 0), SECOND := Tcb(Ready, 1)];
    assert u.tcb == map[FIRST := Tcb(Running, 0), SECOND := Tcb(Ready, 1)];
  }

  lemma SoloForks(m: Machine)
    requires m.s == SoloState(0) && m.frame == map[FIRST := Live] && m.script.Keys == {FIRST}
    requires m.script[FIRST].Then? && m.script[FIRST].op.Fork? && m.script[FIRST].op.priority == 0
    ensures WellFormed(m) && Step(m).s == RivalState()
  {
    hide Tick, MarkAsReady, Create, Check, RivalState, Leave, Refuse, Resume, Closed;
    SoloForked(m.s);
  }

  /** A thread that spends its quantum alone drives it below zero, and then the quantum never takes
      the processor away again: a thread of the same priority that it forks afterwards does not get
      to run however often the first one calls `so_exec`. */
  lemma SoloOverrun(rest: Script, child: Script)
    ensures var m := After(Boot(1, 0, 0, Then(Exec, Then(Fork(0, child), rest))), 4);
      && m.s.ready == [SECOND] && SECOND.priority == FIRST.priority
      && forall n: nat :: Execs(m.s, n).current == Some(FIRST)
  {
    hide Step, Boot, Execs, Overruns, After, WellFormed, Contended;
    var m := Boot(1, 0, 0, Then(Exec, Then(Fork(0, child), rest)));
    SoloBoots(rest, child);
    SoloSpends(After(m, 1));
    NextStep(m, 1);
    Resumes(After(m, 2));
    NextStep(m, 2);
    SoloForks(After(m, 3));
    NextStep(m, 3);
    RivalContended();
    QuantumExpiresExactly(RivalState());
  }

  lemma RivalContended()
    ensures Contended(RivalState()) && ScheduleOrder.Left(RivalState()) == -1
  {
  }
}
