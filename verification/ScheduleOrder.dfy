/** Who runs when: what each call does to the ready queue, FIFO dispatch, the exact round-robin
    bound, the quantum bound, and waiting until the right signal. */
module ScheduleOrder {
  import opened StableOrder
  import opened Scheduling
  import opened Conservation
  import opened SequentialMachine
  import opened MachineSafety

  /** What `so_signal` does before it enters `so_exec`: it wakes exactly the threads that waited for
      `io`, in queue order, each pushed stably, and touches nothing else. */
  lemma {:induction false} SignalWakesExactly(s: Sched, io: nat)
    requires Closed(s) && io < |s.waiting|
    ensures WakeAll(s, io).ready == PushAll(s.ready, s.waiting[io])
    ensures WakeAll(s, io).waiting == s.waiting[io := []]
    ensures WakeAll(s, io).finished == s.finished
    ensures forall t :: t in s.tcb ==>
      WakeAll(s, io).tcb[t] == if t in s.waiting[io] then s.tcb[t].(status := Ready) else s.tcb[t]
    decreases |s.waiting[io]|
  {
    hide Push, Slot;
    if s.waiting[io] != [] {
      var s' := WakeOne(s, io);
      assert s.waiting[io] == [s.waiting[io][0]] + s.waiting[io][1..];
      SignalWakesExactly(s', io);
      assert s'.waiting[io := []] == s.waiting[io := []];
    } else {
      assert s.waiting[io := []] == s.waiting;
    }
  }

  /** The result of `so_signal` is the number of threads it woke; per priority they line up behind
      those that were ready. */
  lemma SignalAnswer(s: Sched, io: Device, p: int)
    requires Sane(s) && io < |s.waiting|
    ensures Answer(s, Signal(io)) == Code(|s.waiting[io]|)
    ensures |WakeAll(s, io).ready| == |s.ready| + |s.waiting[io]|
    ensures Sorted(WakeAll(s, io).ready)
    ensures Level(WakeAll(s, io).ready, p) == Level(s.ready, p) + Level(s.waiting[io], p)
  {
    SignalWakesExactly(s, io);
    PushAllAppendsToLevel(s.ready, s.waiting[io], p);
    PushAllContents(s.ready, s.waiting[io]);
    assert |multiset(PushAll(s.ready, s.waiting[io]))| == |multiset(s.ready) + multiset(s.waiting[io])|;
  }

  /** The step runs `scheduler_check`. */
  ghost predicate Schedules(m: Machine)
    requires WellFormed(m)
  {
    var c := m.s.current.value;
    m.frame[c] == Live && (m.script[c].Done? || !Rejected(m.s, m.script[c].op))
  }

  /** The state in which the step runs `scheduler_check`. */
  ghost function AtCheck(m: Machine): (u: Sched)
    requires WellFormed(m) && Schedules(m)
    ensures Checkable(u) && u.current == m.s.current
  {
    var c := m.s.current.value;
    match m.script[c]
    case Done => Terminate(m.s, c)
    case Then(op, _) => Tick(Prologue(m.s, op))
  }

  /** The threads that the call makes ready, in order. */
  ghost function Arrivals(m: Machine): seq<Tid>
    requires WellFormed(m) && Schedules(m)
  {
    match m.script[m.s.current.value]
    case Done => []
    case Then(op, _) =>
      match op
      case Exec => []
      case Wait(_) => []
      case Signal(io) => m.s.waiting[io]
      case Fork(priority, _) => [NewTid(m.s, priority)]
  }

  lemma StepIsCheck(m: Machine)
    requires WellFormed(m)
    ensures Step(m).s == if Schedules(m) then Check(AtCheck(m)).next else m.s
  {
    hide Check, Closed, Terminate, Tick, Prologue;
  }

  lemma ReadyAtCheck(m: Machine)
    requires WellFormed(m) && Schedules(m)
    ensures AtCheck(m).ready == PushAll(m.s.ready, Arrivals(m))
  {
    hide Push, Slot, WakeAll;
    var c := m.s.current.value;
    match m.script[c]
    case Done =>
    case Then(op, _) =>
      match op
      case Exec =>
      case Wait(_) =>
      case Signal(io) => SignalWakesExactly(m.s, io);
      case Fork(priority, _) =>
        assert PushAll(m.s.ready, [NewTid(m.s, priority)]) == PushAll(Push(m.s.ready, NewTid(m.s, priority)), []);
  }

  lemma AtCheckUndecided(m: Machine)
    requires Safe(m) && Schedules(m) && !LoneWait(m)
    ensures Undecided(AtCheck(m))
  {
    hide Queued, Sorted, Prologue, Tick;
    LiveIsRunning(m);
    var c := m.s.current.value;
    match m.script[c]
    case Done => TerminateUndecided(m.s);
    case Then(op, _) => CallSane(m.s, op);
  }

  // ----- FIFO dispatch -----

  lemma PlanNextInOrder(s: Sched, a: Tid, b: Tid)
    requires Closed(s) && s.ready != [] && Ahead(s.ready, a, b) && a != b
    ensures PlanNext(s).current != Some(b)
    ensures PlanNext(s).current == Some(a) || Ahead(PlanNext(s).ready, a, b)
  {
    var i :| 0 <= i < |s.ready| && s.ready[i] == a && b !in s.ready[..i];
    if i != 0 {
      assert s.ready[0] in s.ready[..i];
      assert s.ready[1..][i - 1] == a && s.ready[1..][..i - 1] == s.ready[..i][1..];
    }
  }

  lemma CheckInOrder(u: Sched, a: Tid, b: Tid)
    requires Undecided(u) && Ahead(u.ready, a, b) && a != b && b.priority <= a.priority
    ensures var s' := Check(u).next;
      s'.current == Some(a) || (Ahead(s'.ready, a, b) && (s'.current == Some(b) ==> u.current == Some(b)))
  {
    hide PlanNext, Push, Slot, Ahead, Queued;
    assert u.ready != [] by { AheadNotEmpty(u.ready, a, b); }
    if u.current.None? || u.tcb[u.current.value].status == Waiting {
      PlanNextInOrder(u, a, b);
    } else {
      var c := u.current.value;
      PushKeepsAhead(u.ready, c, a, b);
      PushContents(u.ready, c);
      if u.tcb[c].status == Terminated {
        PlanNextInOrder(Retire(u, c), a, b);
      } else if Check(u).switched {
        PlanNextInOrder(MarkAsReady(u, c), a, b);
      }
    }
  }

  lemma AheadNotEmpty(q: seq<Tid>, a: Tid, b: Tid)
    requires Ahead(q, a, b)
    ensures q != []
  {
  }

  lemma StepInOrder(m: Machine, a: Tid, b: Tid)
    requires WellFormed(m) && Safe(m) && !LoneWait(m)
    requires Ahead(m.s.ready, a, b) && a != b && b.priority <= a.priority
    ensures var s' := Step(m).s;
      s'.current == Some(a) || (Ahead(s'.ready, a, b) && (s'.current == Some(b) ==> m.s.current == Some(b)))
  {
    hide Check, Ahead, Step, Schedules, AtCheck, Arrivals, LoneWait;
    StepIsCheck(m);
    if Schedules(m) {
      AtCheckUndecided(m);
      ReadyAtCheck(m);
      PushAllKeepsAhead(m.s.ready, Arrivals(m), a, b);
      CheckInOrder(AtCheck(m), a, b);
    }
  }

  /** Thread `t` got the processor within the first `n` steps. */
  ghost predicate RunsWithin(m: Machine, t: Tid, n: nat)
    requires WellFormed(m)
  {
    exists i :: 0 <= i <= n && After(m, i).s.current == Some(t)
  }

  lemma {:induction false} OrderKept(m: Machine, a: Tid, b: Tid, n: nat)
    requires WellFormed(m) && Safe(m) && Disciplined(m, n)
    requires Ahead(m.s.ready, a, b) && a != b && b.priority <= a.priority
    requires !RunsWithin(m, a, n)
    ensures Ahead(After(m, n).s.ready, a, b)
  {
    hide Step, Safe, WellFormed, LoneWait, Ahead;
    if n != 0 {
      OrderKept(m, a, b, n - 1);
      RunSafe(m, n - 1);
      StepInOrder(After(m, n - 1), a, b);
      assert After(m, n).s.current != Some(a);
    }
  }

  /** FIFO dispatch over whole runs: while `a` is ready and `b`, of at most the same priority, is not
      ahead of it, `b` is not put on the processor before `a` was on it, whatever the threads do. */
  lemma FifoDispatch(m: Machine, a: Tid, b: Tid, n: nat)
    requires WellFormed(m) && Safe(m) && Disciplined(m, n + 1)
    requires Ahead(m.s.ready, a, b) && a != b && b.priority <= a.priority
    requires After(m, n).s.current != Some(b) && After(m, n + 1).s.current == Some(b)
    ensures RunsWithin(m, a, n)
  {
    hide Step, Safe, WellFormed, LoneWait, Ahead;
    assert After(m, n + 1) == Step(After(m, n));
    if !RunsWithin(m, a, n) {
      OrderKept(m, a, b, n);
      RunSafe(m, n);
      StepInOrder(After(m, n), a, b);
      assert false;
    }
  }

  lemma PlanNextMembers(s: Sched, b: Tid)
    requires Closed(s) && s.ready != [] && b in PlanNext(s).ready
    ensures b in s.ready
  {
  }

  /** A decision puts no thread into the ready queue but the one it takes off the processor. */
  lemma CheckEntersBehind(u: Sched, a: Tid, b: Tid)
    requires Undecided(u) && a in u.ready && b !in u.ready && b in Check(u).next.ready && b.priority <= a.priority
    ensures Check(u).next.current == Some(a) || Ahead(Check(u).next.ready, a, b)
  {
    hide PlanNext, Push, Slot, Ahead, Queued;
    if u.current.None? || u.tcb[u.current.value].status == Waiting {
      PlanNextMembers(u, b);
    } else {
      var c := u.current.value;
      if u.tcb[c].status == Terminated {
        PlanNextMembers(Retire(u, c), b);
      } else if Check(u).switched {
        PushContents(u.ready, c);
        PlanNextMembers(MarkAsReady(u, c), b);
        PushGoesBehind(u.ready, a, b);
        PlanNextInOrder(MarkAsReady(u, c), a, b);
      }
    }
  }

  /** A thread that becomes ready, by whatever call, goes behind every ready thread of at least its
      priority. */
  lemma EntersBehind(m: Machine, a: Tid, b: Tid)
    requires WellFormed(m) && Safe(m) && !LoneWait(m)
    requires a in m.s.ready && b !in m.s.ready && b in Step(m).s.ready && b.priority <= a.priority
    ensures Step(m).s.current == Some(a) || Ahead(Step(m).s.ready, a, b)
  {
    hide Check, Ahead, Step, Schedules, AtCheck, Arrivals, LoneWait, Queued;
    StepIsCheck(m);
    var u := AtCheck(m);
    AtCheckUndecided(m);
    ReadyAtCheck(m);
    PushAllContents(m.s.ready, Arrivals(m));
    assert a in multiset(m.s.ready) + multiset(Arrivals(m));
    assert a in multiset(u.ready);
    if b in u.ready {
      PushAllGoesBehind(m.s.ready, Arrivals(m), a, b);
      CheckInOrder(u, a, b);
    } else {
      CheckEntersBehind(u, a, b);
    }
  }

  /** First in, first out, from the entry on: `b` becomes ready while `a`, of at least its priority, is
      ready already; then `b` is not put on the processor before `a` was on it. */
  lemma FifoFromEntry(m: Machine, a: Tid, b: Tid, n: nat)
    requires WellFormed(m) && Safe(m) && Disciplined(m, n + 1) && 1 <= n
    requires a in m.s.ready && b !in m.s.ready && b in Step(m).s.ready && b.priority <= a.priority
    requires After(m, n).s.current != Some(b) && After(m, n + 1).s.current == Some(b)
    ensures RunsWithin(m, a, n)
  {
    hide Step, Safe, WellFormed, LoneWait, Ahead, After;
    FirstStep(m);
    assert !LoneWait(After(m, 0));
    NoSteps(m);
    StepSafe(m);
    EntersBehind(m, a, b);
    if Step(m).s.current == Some(a) {
      assert After(m, 1).s.current == Some(a);
    } else {
      LaterDisciplined(m, n);
      AfterAdds(m, 1, n - 1);
      AfterAdds(m, 1, n);
      FifoDispatch(Step(m), a, b, n - 1);
      LaterRunsWithin(m, a, n);
    }
  }

  lemma NoSteps(m: Machine)
    requires WellFormed(m)
    ensures After(m, 0) == m
  {
  }

  lemma FirstStep(m: Machine)
    requires WellFormed(m)
    ensures After(m, 1) == Step(m)
  {
    assert After(m, 0) == m;
  }

  lemma LaterDisciplined(m: Machine, n: nat)
    requires WellFormed(m) && Disciplined(m, n + 1)
    ensures Disciplined(Step(m), n)
  {
    hide Step, WellFormed, LoneWait, After;
    FirstStep(m);
    forall i | 0 <= i < n ensures !LoneWait(After(Step(m), i)) {
      AfterAdds(m, 1, i);
      assert !LoneWait(After(m, i + 1));
    }
  }

  lemma LaterRunsWithin(m: Machine, t: Tid, n: nat)
    requires WellFormed(m) && 1 <= n && RunsWithin(Step(m), t, n - 1)
    ensures RunsWithin(m, t, n)
  {
    hide Step, WellFormed, After;
    FirstStep(m);
    var i: nat :| i <= n - 1 && After(Step(m), i).s.current == Some(t);
    AfterAdds(m, 1, i);
    assert After(m, i + 1).s.current == Some(t);
  }

  // ----- Round robin -----

  /** How many of the first `n` steps ran `scheduler_check`. */
  ghost function Calls(m: Machine, n: nat): nat
    requires WellFormed(m)
  {
    if n == 0 then 0 else Calls(m, n - 1) + if Schedules(After(m, n - 1)) then 1 else 0
  }

  /** Time left to the running thread of a state. */
  ghost function Left(s: Sched): int
    requires Closed(s) && s.current.Some?
  {
    s.tcb[s.current.value].left
  }

  /** `t` is ready at index `k`, ranks with the running thread, and that one's quantum is not over. */
  ghost predicate Queuing(s: Sched, t: Tid, k: nat) {
    && Closed(s) && s.current.Some? && s.current.value.priority == t.priority
    && k < |s.ready| && s.ready[k] == t && 1 <= Left(s)
  }

  /** The number of scheduler calls after which `t` has the processor at the latest. */
  ghost function Distance(s: Sched, k: nat): int
    requires Closed(s) && s.current.Some?
  {
    Left(s) + s.quantum * k
  }

  lemma PlanNextRotates(s: Sched, t: Tid, k: nat)
    requires Closed(s) && 1 <= s.quantum && k < |s.ready| && s.ready[k] == t
    requires PlanNext(s).current.value.priority == t.priority && PlanNext(s).current != Some(t)
    ensures 1 <= k && Queuing(PlanNext(s), t, k - 1) && Distance(PlanNext(s), k - 1) == s.quantum * k
  {
    assert s.ready[1..][k - 1] == t;
    assert s.quantum * (k - 1) == s.quantum * k - s.quantum;
  }

  lemma PlanNextHead(s: Sched)
    requires Closed(s) && s.ready != []
    ensures PlanNext(s).current == Some(s.ready[0])
  {
  }

  /** The thread at index `k` stays at index `k` of a queue into which the running thread is put back
      from behind its equals. */
  lemma PutBack(u: Sched, t: Tid, k: nat)
    requires Closed(u) && 1 <= u.quantum && Sorted(u.ready) && u.current.Some? && u.current.value.priority == t.priority
    requires k < |u.ready| && (u.ready[k] == t || t.priority < u.ready[0].priority)
    requires PlanNext(MarkAsReady(u, u.current.value)).current.value.priority == t.priority
    ensures u.ready[0].priority == t.priority
    ensures k < |MarkAsReady(u, u.current.value).ready| && MarkAsReady(u, u.current.value).ready[k] == t
  {
    hide PlanNext, Slot, Queued, Flatten;
    var c := u.current.value;
    assert u.ready[k].priority <= u.ready[0].priority;
    PushKeepsHead(u.ready, c);
    PlanNextHead(MarkAsReady(u, c));
    PushKeepsIndex(u.ready, c, k);
  }

  /** What one `scheduler_check` does to the distance of a queuing thread while no higher priority
      shows up: a rotation trades one place in the queue for one quantum. */
  lemma CheckRotates(u: Sched, t: Tid, k: nat) returns (k': nat)
    requires Closed(u) && 1 <= u.quantum && Sorted(u.ready) && u.current.Some? && u.current.value.priority == t.priority
    requires u.tcb[u.current.value].status != Ready
    requires k < |u.ready| && (u.ready[k] == t || t.priority < u.ready[0].priority)
    requires 0 <= Left(u)
    requires var s' := Check(u).next; s'.current.value.priority == t.priority && s'.current != Some(t)
    ensures Queuing(Check(u).next, t, k')
    ensures Distance(Check(u).next, k')
         == u.quantum * k + if u.tcb[u.current.value].status == Running then Left(u) else 0
  {
    hide PlanNext, Push, Queuing, Distance, Sorted, Slot;
    var c := u.current.value;
    PlanNextHead(u);
    if u.tcb[c].status == Waiting {
      PlanNextRotates(u, t, k);
      k' := k - 1;
    } else if u.tcb[c].status == Terminated {
      PlanNextHead(Retire(u, c));
      PlanNextRotates(Retire(u, c), t, k);
      k' := k - 1;
    } else if Check(u).switched {
      PutBack(u, t, k);
      PlanNextRotates(MarkAsReady(u, c), t, k);
      k' := k - 1;
    } else {
      KeepRotates(u, t, k);
      k' := k;
    }
  }

  lemma KeepRotates(u: Sched, t: Tid, k: nat)
    requires Closed(u) && 1 <= u.quantum && Sorted(u.ready) && u.current.Some? && u.current.value.priority == t.priority
    requires k < |u.ready| && (u.ready[k] == t || t.priority < u.ready[0].priority)
    requires 0 <= Left(u) && u.tcb[u.current.value].status == Running && !Check(u).switched
    ensures Queuing(Check(u).next, t, k) && Distance(Check(u).next, k) == Left(u) + u.quantum * k
  {
    hide PlanNext, Push, Queued, Flatten;
    assert u.ready[k].priority <= u.ready[0].priority;
  }

  /** The caller of the step stays runnable. */
  ghost predicate CallerRunnable(m: Machine)
    requires WellFormed(m)
  {
    var script := m.script[m.s.current.value];
    script.Then? && !script.op.Wait?
  }

  lemma StepRotates(m: Machine, t: Tid, k: nat) returns (k': nat)
    requires WellFormed(m) && Safe(m) && !LoneWait(m) && Queuing(m.s, t, k)
    requires Step(m).s.current.value.priority == t.priority && Step(m).s.current != Some(t)
    ensures Queuing(Step(m).s, t, k')
    ensures !Schedules(m) ==> Distance(Step(m).s, k') == Distance(m.s, k)
    ensures Schedules(m) ==> Distance(Step(m).s, k') <= Distance(m.s, k) - 1
    ensures Schedules(m) && CallerRunnable(m) ==> Distance(Step(m).s, k') == Distance(m.s, k) - 1
  {
    hide Check, Step, AtCheck, Arrivals, Push, PushAll, Undecided, Sane, LoneWait;
    StepIsCheck(m);
    if Schedules(m) {
      var u := AtCheck(m);
      QueuingAtCheck(m, t, k);
      k' := CheckRotates(u, t, k);
    } else {
      k' := k;
    }
  }

  lemma QueuingAtCheck(m: Machine, t: Tid, k: nat)
    requires WellFormed(m) && Safe(m) && !LoneWait(m) && Queuing(m.s, t, k) && Schedules(m)
    ensures var u := AtCheck(m);
      && Sorted(u.ready) && 1 <= u.quantum && u.quantum == m.s.quantum && u.current.Some?
      && u.current.value.priority == t.priority
      && k < |u.ready| && (u.ready[k] == t || t.priority < u.ready[0].priority)
      && u.tcb[u.current.value].status != Ready
      && 0 <= Left(u)
      && (CallerRunnable(m) ==> Left(u) == Left(m.s) - 1)
      && (u.tcb[u.current.value].status == Running <==> CallerRunnable(m))
  {
    hide AtCheck, Arrivals, Push, PushAll, LoneWait, Queued, Schedules;
    AtCheckUndecided(m);
    ReadyAtCheck(m);
    PushAllKeepsIndex(m.s.ready, Arrivals(m), k);
    CallerAtCheck(m);
  }

  lemma CurrentNotWaiting(s: Sched)
    requires Sane(s)
    ensures forall d :: 0 <= d < |s.waiting| ==> s.current.value !in s.waiting[d]
  {
    CurrentNotQueued(s);
    NotQueued(s, s.current.value);
  }

  /** What the caller of a call looks like to `scheduler_check`. */
  lemma CallerAtCheck(m: Machine)
    requires WellFormed(m) && Safe(m) && Schedules(m) && !LoneWait(m)
    ensures AtCheck(m).quantum == m.s.quantum
    ensures m.script[m.s.current.value].Done? ==> Left(AtCheck(m)) == Left(m.s)
    ensures m.script[m.s.current.value].Then? ==> Left(AtCheck(m)) == Left(m.s) - 1
    ensures AtCheck(m).tcb[m.s.current.value].status == Running <==> CallerRunnable(m)
  {
    hide Push, Slot, WakeAll, Queued, Flatten, Tidy, Sorted;
    LiveIsRunning(m);
    CurrentNotWaiting(m.s);
    var script := m.script[m.s.current.value];
    if script.Then? && script.op.Signal? {
      SignalWakesExactly(m.s, script.op.io);
      WakeAllQuantum(m.s, script.op.io);
    }
  }

  lemma {:induction false} WakeAllQuantum(s: Sched, io: nat)
    requires Closed(s) && io < |s.waiting|
    ensures WakeAll(s, io).quantum == s.quantum
    decreases |s.waiting[io]|
  {
    if s.waiting[io] != [] {
      WakeAllQuantum(WakeOne(s, io), io);
    }
  }

  /** A queuing thread stays ready until it runs, so nobody of a lower priority takes over. */
  lemma QueuingOutranked(m: Machine, t: Tid, k: nat)
    requires WellFormed(m) && Safe(m) && !LoneWait(m) && Queuing(m.s, t, k) && Step(m).s.current != Some(t)
    ensures t.priority <= Step(m).s.current.value.priority
  {
    hide Step, LoneWait, WellFormed, Queued, Flatten, Sorted, Ahead;
    var c := m.s.current.value;
    CurrentNotReady(m.s);
    MemberAhead(m.s.ready, t, c);
    StepInOrder(m, t, c);
    AheadMember(Step(m).s.ready, t, c);
    StepSafe(m);
    SaneMeans(Step(m).s);
  }

  lemma CurrentNotReady(s: Sched)
    requires Sane(s)
    ensures s.current.value !in s.ready
  {
    CurrentNotQueued(s);
    NotQueued(s, s.current.value);
  }

  lemma MemberAhead(q: seq<Tid>, a: Tid, b: Tid)
    requires a in q && b !in q
    ensures Ahead(q, a, b)
  {
    var i :| 0 <= i < |q| && q[i] == a;
    assert b !in q[..i];
  }

  lemma AheadMember(q: seq<Tid>, a: Tid, b: Tid)
    requires Ahead(q, a, b)
    ensures a in q
  {
  }

  /** Exact round-robin bound. Thread `t` is ready at index `k`, of the running thread's priority; the
      running thread has `q >= 1` calls left. As long as no higher priority takes over, every
      scheduler call, by whichever thread, brings `t` nearer, so `t` runs before `q + Q * k` calls
      are over. */
  lemma {:induction false} RoundRobin(m: Machine, t: Tid, k: nat, n: nat) returns (k': nat)
    requires WellFormed(m) && Safe(m) && Disciplined(m, n) && Queuing(m.s, t, k)
    requires forall i :: 0 <= i <= n ==> After(m, i).s.current.value.priority <= t.priority
    requires !RunsWithin(m, t, n)
    ensures Queuing(After(m, n).s, t, k')
    ensures Distance(After(m, n).s, k') + Calls(m, n) <= Distance(m.s, k)
    ensures Calls(m, n) < Left(m.s) + m.s.quantum * k
  {
    hide Step, Safe, WellFormed, LoneWait, Schedules, Queued, Partition, Left;
    if n == 0 {
      k' := k;
    } else {
      var before := RoundRobin(m, t, k, n - 1);
      RunSafe(m, n - 1);
      assert After(m, n) == Step(After(m, n - 1)) && After(m, n).s.current != Some(t);
      QueuingOutranked(After(m, n - 1), t, before);
      k' := StepRotates(After(m, n - 1), t, before);
    }
    RunSafe(m, n);
    DistancePositive(After(m, n), t, k');
  }

  lemma DistancePositive(m: Machine, t: Tid, k: nat)
    requires Safe(m) && Queuing(m.s, t, k)
    ensures 1 <= Distance(m.s, k)
  {
    assert 0 <= m.s.quantum * k;
  }

  // ----- The quantum -----

  /** The state after the running thread called `so_exec` `n` times, whoever is running then. */
  ghost function Execs(s: Sched, n: nat): (s': Sched)
    requires Closed(s) && s.current.Some?
    ensures Closed(s') && s'.current.Some?
  {
    if n == 0 then s else Check(Tick(Execs(s, n - 1))).next
  }

  /** A thread runs while another of its priority is the first of the ready ones. */
  ghost predicate Contended(s: Sched) {
    Closed(s) && s.current.Some? && s.tcb[s.current.value].status == Running
    && s.ready != [] && s.ready[0] != s.current.value && s.ready[0].priority == s.current.value.priority
  }

  /** The state in which the running thread has `k` units less than in `s`. */
  ghost function Spend(s: Sched, k: int): (s': Sched)
    requires Closed(s) && s.current.Some?
    ensures Closed(s')
  {
    var c := s.current.value;
    s.(tcb := s.tcb[c := s.tcb[c].(left := s.tcb[c].left - k)])
  }

  lemma TickSpends(s: Sched, k: int)
    requires Closed(s) && s.current.Some?
    ensures Tick(Spend(s, k)) == Spend(s, k + 1) && Spend(s, 0) == s
  {
    assert s.tcb[s.current.value := s.tcb[s.current.value]] == s.tcb;
    var c, tcb := s.current.value, s.tcb;
    assert tcb[c := tcb[c].(left := tcb[c].left - k)][c := tcb[c].(left := tcb[c].left - (k + 1))]
        == tcb[c := tcb[c].(left := tcb[c].left - (k + 1))];
  }

  lemma CheckSpent(s: Sched, k: int)
    requires Contended(s)
    ensures Left(s) != k ==> Check(Spend(s, k)).next == Spend(s, k)
    ensures Left(s) == k ==> Check(Spend(s, k)).next.current == Some(s.ready[0])
  {
    hide Slot;
    PushKeepsHead(s.ready, s.current.value);
  }

  lemma {:induction false} KeepsProcessor(s: Sched, n: nat)
    requires Contended(s) && (Left(s) <= 0 || n < Left(s))
    ensures Execs(s, n) == Spend(s, n)
  {
    hide Check, Tick, Spend, Closed;
    if n == 0 {
      TickSpends(s, 0);
    } else {
      KeepsProcessor(s, n - 1);
      TickSpends(s, n - 1);
      CheckSpent(s, n);
    }
  }

  lemma GivesWay(s: Sched)
    requires Contended(s) && 1 <= Left(s)
    ensures Execs(s, Left(s)).current == Some(s.ready[0])
  {
    hide Check, Tick, Spend, Closed;
    KeepsProcessor(s, Left(s) - 1);
    TickSpends(s, Left(s) - 1);
    CheckSpent(s, Left(s));
  }

  /** Exactly when the quantum ever takes the processor away: a running thread that only calls
      `so_exec` gives way to an equal one if and only if it still has time left. */
  lemma QuantumExpiresExactly(s: Sched)
    requires Contended(s)
    ensures (exists n: nat :: Execs(s, n).current != s.current) <==> 1 <= Left(s)
  {
    hide Execs;
    if 1 <= Left(s) {
      GivesWay(s);
      assert Execs(s, Left(s)).current != s.current;
    } else {
      forall n: nat ensures Execs(s, n).current == s.current {
        KeepsProcessor(s, n);
      }
    }
  }

  /** A quantum that expires while an equal one is first rotates one level: the thread that had the
      processor goes behind all the ready threads of its priority, the first of them runs, and the
      other levels stay. */
  lemma ExpiryRotatesLevel(u: Sched, p: int)
    requires Undecided(u) && u.current.Some? && u.tcb[u.current.value].status == Running && Left(u) == 0
    requires u.ready != [] && u.ready[0].priority == u.current.value.priority
    ensures var c, s' := u.current.value, Check(u).next;
      && s'.current == Some(u.ready[0])
      && (p == c.priority ==> [s'.current.value] + Level(s'.ready, p) == Level(u.ready, p) + [c])
      && (p != c.priority ==> Level(s'.ready, p) == Level(u.ready, p))
  {
    hide Level, Push, Slot, Queued, Flatten;
    RotateLevel(u.ready, u.current.value, p);
  }

  /** The call that spends the last unit of a quantum while no other thread is ready. */
  ghost predicate Overruns(m: Machine)
    requires WellFormed(m)
  {
    Schedules(m) && m.script[m.s.current.value].Then? && AtCheck(m).ready == [] && Left(m.s) == 1
  }

  /** A thread on the processor always has between 1 and `Q` units left, and exactly a call that
      spends the last one while nothing else is ready breaks that. */
  lemma QuantumKeptExactly(m: Machine)
    requires WellFormed(m) && Safe(m) && !LoneWait(m) && 1 <= Left(m.s) <= m.s.quantum
    ensures Step(m).s.quantum == m.s.quantum
    ensures 1 <= Left(Step(m).s) <= m.s.quantum <==> !Overruns(m)
  {
    hide Step, AtCheck, Queued, Push, Schedules;
    StepIsCheck(m);
    if Schedules(m) {
      AtCheckUndecided(m);
      CallerAtCheck(m);
    }
  }

  lemma {:induction false} QuantumBound(m: Machine, n: nat)
    requires WellFormed(m) && Safe(m) && Disciplined(m, n) && 1 <= Left(m.s) <= m.s.quantum
    requires forall i :: 0 <= i < n ==> !Overruns(After(m, i))
    ensures After(m, n).s.quantum == m.s.quantum
    ensures 1 <= Left(After(m, n).s) <= m.s.quantum
  {
    hide Step, Safe, WellFormed, LoneWait, Overruns, Left;
    if n != 0 {
      QuantumBound(m, n - 1);
      RunSafe(m, n - 1);
      QuantumKeptExactly(After(m, n - 1));
    }
  }

  // ----- Waiting for a device -----

  /** How a step changes the waiting queues. */
  ghost function WaitingAfter(m: Machine): seq<seq<Tid>>
    requires WellFormed(m)
  {
    var c := m.s.current.value;
    if !Schedules(m) || m.script[c].Done? then m.s.waiting
    else match m.script[c].op
      case Wait(io) => m.s.waiting[io := Push(m.s.waiting[io], c)]
      case Signal(io) => m.s.waiting[io := []]
      case _ => m.s.waiting
  }

  lemma PrologueWaiting(s: Sched, op: Op)
    requires Closed(s) && s.current.Some? && !Rejected(s, op)
    ensures Prologue(s, op).waiting
         == match op
            case Wait(io) => s.waiting[io := Push(s.waiting[io], s.current.value)]
            case Signal(io) => s.waiting[io := []]
            case _ => s.waiting
  {
    hide Push, Slot, WakeAll;
    if op.Signal? {
      SignalWakesExactly(s, op.io);
    }
  }

  lemma CheckWaiting(u: Sched)
    requires Checkable(u)
    ensures Check(u).next.waiting == u.waiting
  {
    hide Push, Slot;
  }

  lemma StepWaiting(m: Machine)
    requires WellFormed(m)
    ensures Step(m).s.waiting == WaitingAfter(m)
  {
    hide Push, Slot, Prologue, Step, Check;
    StepIsCheck(m);
    if Schedules(m) {
      CheckWaiting(AtCheck(m));
      if m.script[m.s.current.value].Then? {
        PrologueWaiting(m.s, m.script[m.s.current.value].op);
      }
    }
  }

  /** The step is a signal on device `d`. */
  ghost predicate Signals(m: Machine, d: Device)
    requires WellFormed(m)
  {
    var c := m.s.current.value;
    Schedules(m) && m.script[c].Then? && m.script[c].op == Signal(d)
  }

  lemma StepKeepsWaiter(m: Machine, t: Tid, d: Device)
    requires WellFormed(m) && d < |m.s.waiting| && t in m.s.waiting[d] && !Signals(m, d)
    ensures d < |Step(m).s.waiting| && t in Step(m).s.waiting[d]
  {
    hide Push, Slot, Step;
    StepWaiting(m);
    PushContents(m.s.waiting[d], m.s.current.value);
  }

  /** Until a signal on its device, a waiting thread stays in that device's queue and does not run. */
  lemma {:induction false} WaitsForSignal(m: Machine, t: Tid, d: Device, n: nat)
    requires WellFormed(m) && Safe(m) && Disciplined(m, n) && d < |m.s.waiting| && t in m.s.waiting[d]
    requires forall i :: 0 <= i < n ==> !Signals(After(m, i), d)
    ensures d < |After(m, n).s.waiting| && t in After(m, n).s.waiting[d]
    ensures After(m, n).s.current != Some(t)
  {
    hide Step, LoneWait, Safe, Signals, WellFormed;
    if n != 0 {
      WaitsForSignal(m, t, d, n - 1);
      StepKeepsWaiter(After(m, n - 1), t, d);
    }
    RunSafe(m, n);
    WaiterNotCurrent(After(m, n), t, d);
  }

  lemma WaiterNotCurrent(m: Machine, t: Tid, d: nat)
    requires Safe(m) && d < |m.s.waiting| && t in m.s.waiting[d]
    ensures m.s.current != Some(t)
  {
    CurrentNotQueued(m.s);
    NotQueued(m.s, m.s.current.value);
  }

  // ----- Results of calls -----

  /** What the documentation promises as the result of each call. */
  ghost function Promised(s: Sched, op: Op): Ret {
    match op
    case Exec => Void
    case Wait(io) => if io < |s.waiting| then Code(0) else Code(-1)
    case Signal(io) => if io < |s.waiting| then Code(|s.waiting[io]|) else Code(-1)
    case Fork(priority, _) => if priority <= MAX_PRIORITY then Child(Tid(s.count, priority)) else InvalidTid
  }

  /** Step `i` of the run is the return of thread `c` from a call, with result `ret`. */
  ghost predicate ReturnsAt(m: Machine, c: Tid, ret: Ret, i: nat)
    requires WellFormed(m)
  {
    After(m, i).s.current == Some(c) && After(m, i + 1).log == After(m, i).log + [Returned(c, ret)]
  }

  lemma PendingStep(m: Machine, c: Tid, ret: Ret)
    requires WellFormed(m) && c in m.frame && m.frame[c] == Pending(ret)
    ensures m.s.current == Some(c) ==> Step(m).log == m.log + [Returned(c, ret)]
    ensures m.s.current != Some(c) ==> c in Step(m).frame && Step(m).frame[c] == Pending(ret)
  {
    hide Check, Prologue, Terminate, Decide, Tick, Closed;
    ClosedMembers(m.s);
    var script := m.script[m.s.current.value];
    if script.Then? && script.op.Fork? {
      NewIsNew(m.s, script.op.priority);
    }
  }

  lemma {:induction false} PendingUntilReturn(m: Machine, c: Tid, ret: Ret, n: nat)
    requires WellFormed(m) && c in m.frame && m.frame[c] == Pending(ret)
    requires forall i :: 0 <= i < n ==> After(m, i).s.current != Some(c)
    ensures c in After(m, n).frame && After(m, n).frame[c] == Pending(ret)
    ensures After(m, n).s.current == Some(c) ==> ReturnsAt(m, c, ret, n)
  {
    hide Step, WellFormed;
    if n != 0 {
      PendingUntilReturn(m, c, ret, n - 1);
      PendingStep(After(m, n - 1), c, ret);
      assert After(m, n) == Step(After(m, n - 1));
    }
    PendingStep(After(m, n), c, ret);
    assert After(m, n + 1) == Step(After(m, n));
  }

  lemma CallIsPending(m: Machine)
    requires WellFormed(m) && m.frame[m.s.current.value] == Live && m.script[m.s.current.value].Then?
    requires !Rejected(m.s, m.script[m.s.current.value].op)
    ensures var c, op := m.s.current.value, m.script[m.s.current.value].op;
      c in Step(m).frame && Step(m).frame[c] == Pending(Promised(m.s, op))
  {
    hide Check, Prologue, Decide;
  }

  lemma RefusedReturns(m: Machine)
    requires WellFormed(m) && m.frame[m.s.current.value] == Live && m.script[m.s.current.value].Then?
    requires Rejected(m.s, m.script[m.s.current.value].op)
    ensures var c, op := m.s.current.value, m.script[m.s.current.value].op;
      Step(m).s == m.s && Step(m).log == m.log + [Called(c, op), Returned(c, Promised(m.s, op))]
  {
  }

  /** A run seen from its second state on. */
  lemma PendingReturns(m: Machine, c: Tid, ret: Ret, n: nat)
    requires WellFormed(m) && c in Step(m).frame && Step(m).frame[c] == Pending(ret) && 1 <= n
    requires forall i :: 1 <= i < n ==> After(m, i).s.current != Some(c)
    ensures After(m, n).s.current == Some(c) ==> ReturnsAt(m, c, ret, n)
  {
    hide Step, WellFormed, After;
    var m1 := Step(m);
    FirstStep(m);
    forall i | 0 <= i < n - 1 ensures After(m1, i).s.current != Some(c) {
      AfterAdds(m, 1, i);
      assert After(m, i + 1).s.current != Some(c);
    }
    PendingUntilReturn(m1, c, ret, n - 1);
    AfterAdds(m, 1, n - 1);
    AfterAdds(m, 1, n);
  }

  /** Each call returns what is promised. A call that fails returns at once and changes nothing in the
      scheduler; any other returns, with the result fixed at the call, as the first thing its caller
      does when it has the processor again, whatever other threads did in between. */
  lemma CallReturns(m: Machine, n: nat)
    requires WellFormed(m) && m.frame[m.s.current.value] == Live && m.script[m.s.current.value].Then?
    requires 1 <= n && forall i :: 1 <= i < n ==> After(m, i).s.current != m.s.current
    ensures var c, op := m.s.current.value, m.script[m.s.current.value].op;
      if Rejected(m.s, op) then
        Step(m).s == m.s && Step(m).log == m.log + [Called(c, op), Returned(c, Promised(m.s, op))]
      else
        After(m, n).s.current == Some(c) ==> ReturnsAt(m, c, Promised(m.s, op), n)
  {
    hide Call, Leave, Resume, Step, After, ReturnsAt, Promised, Rejected;
    var c, op := m.s.current.value, m.script[m.s.current.value].op;
    if Rejected(m.s, op) {
      RefusedReturns(m);
    } else {
      CallIsPending(m);
      PendingReturns(m, c, Promised(m.s, op), n);
    }
  }
}
