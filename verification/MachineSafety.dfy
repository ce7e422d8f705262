/** Conservation and priority safety over whole runs of the schedule, and exactly when a step of it
    breaks them. */
module MachineSafety {
  import opened StableOrder
  import opened Scheduling
  import opened Conservation
  import opened SequentialMachine

  /** `scheduler_check` relabels only the thread it takes off the processor and the one it puts on. */
  lemma CheckAgrees(u: Sched, frame: map<Tid, Frame>)
    requires Undecided(u) && frame.Keys == u.tcb.Keys
    requires forall t :: t in u.tcb && u.current != Some(t) ==> Agree(u.tcb[t].status, frame[t])
    requires u.current.Some? ==>
      if u.tcb[u.current.value].status == Terminated then frame[u.current.value].Gone?
      else frame[u.current.value].Pending?
    ensures forall t :: t in u.tcb ==> Agree(Check(u).next.tcb[t].status, frame[t])
  {
    hide Queued, Sorted, Flatten, Push, Slot, PlanNext, Closed;
    ClosedMembers(u);
    if u.ready != [] {
      assert u.ready[0] in u.ready;
      if u.current.None? || u.tcb[u.current.value].status == Waiting {
        PlanNextAgrees(u, frame);
      } else if u.tcb[u.current.value].status == Terminated {
        PlanNextAgrees(Retire(u, u.current.value), frame);
      } else if Check(u).switched {
        PushContents(u.ready, u.current.value);
        PlanNextAgrees(MarkAsReady(u, u.current.value), frame);
      }
    }
  }

  lemma ClosedMembers(u: Sched)
    requires Closed(u)
    ensures u.current.Some? ==> u.current.value in u.tcb
    ensures forall t :: t in u.ready ==> t in u.tcb
  {
  }

  lemma PlanNextAgrees(u: Sched, frame: map<Tid, Frame>)
    requires Closed(u) && u.ready != [] && frame.Keys == u.tcb.Keys
    requires forall t :: t in u.tcb ==> Agree(u.tcb[t].status, frame[t])
    requires forall t :: t in u.ready ==> u.tcb[t].status == Ready
    ensures forall t :: t in u.tcb ==> Agree(PlanNext(u).tcb[t].status, frame[t])
  {
    assert u.ready[0] in u.ready;
  }

  /** A signal turns waiting threads into ready ones and relabels no other. */
  lemma {:induction false} WakeAllStatuses(s: Sched, io: nat)
    requires Undecided(s) && Partition(s) && io < |s.waiting|
    ensures forall t :: t in s.tcb ==>
      WakeAll(s, io).tcb[t] == s.tcb[t]
      || (s.tcb[t].status == Waiting && WakeAll(s, io).tcb[t].status == Ready)
    decreases |s.waiting[io]|
  {
    if s.waiting[io] != [] {
      assert s.waiting[io][0] in s.waiting[io];
      WakeOneUndecided(s, io);
      WakeAllStatuses(WakeOne(s, io), io);
    }
  }

  /** Unless it waits with nothing ready, a call hands a state to `scheduler_check` in which every
      thread is accounted for. */
  lemma PrologueUndecided(s: Sched, op: Op)
    requires Sane(s) && s.tcb[s.current.value].status == Running && !Rejected(s, op)
    requires op.Wait? ==> s.ready != []
    ensures Undecided(Prologue(s, op))
  {
    match op
    case Exec =>
    case Wait(io) => EnrolUndecided(s, io);
    case Signal(io) => WakeAllUndecided(s, io);
    case Fork(priority, _) => CreateUndecided(s, priority);
  }

  lemma LiveIsRunning(m: Machine)
    requires Safe(m) && m.frame[m.s.current.value] == Live
    ensures m.s.tcb[m.s.current.value].status == Running
  {
    var c := m.s.current.value;
    assert Agree(m.s.tcb[c].status, m.frame[c]);
  }

  /** Frames and statuses agree when `scheduler_check` is called, the caller's being inside the call. */
  lemma PrologueAgrees(s: Sched, frame: map<Tid, Frame>, op: Op)
    requires Sane(s) && s.tcb[s.current.value].status == Running && !Rejected(s, op)
    requires frame.Keys == s.tcb.Keys && forall t :: t in s.tcb ==> Agree(s.tcb[t].status, frame[t])
    ensures forall t :: t in s.tcb && s.current != Some(t) ==> Agree(Prologue(s, op).tcb[t].status, frame[t])
    ensures op.Fork? ==> Prologue(s, op).tcb[NewTid(s, op.priority)].status == Ready
    ensures Prologue(s, op).tcb[s.current.value].status != Terminated
  {
    hide Queued, Sorted, Flatten, Push, Slot, WakeAll, WakeOne;
    if op.Signal? {
      WakeAllStatuses(s, op.io);
    }
  }

  lemma CallSane(s: Sched, op: Op)
    requires Sane(s) && s.tcb[s.current.value].status == Running && !Rejected(s, op)
    requires op.Wait? ==> s.ready != []
    ensures Sane(Decide(s, op).next) && Undecided(Tick(Prologue(s, op)))
  {
    hide Prologue, Tick, Check, Queued, Sorted;
    PrologueUndecided(s, op);
    TickUndecided(Prologue(s, op));
    CheckSane(Tick(Prologue(s, op)));
  }

  lemma CallAgrees(m: Machine, op: Op, rest: Script)
    requires Safe(m) && m.frame[m.s.current.value] == Live && !Rejected(m.s, op)
    requires op.Wait? ==> m.s.ready != []
    ensures forall t :: t in Decide(m.s, op).next.tcb ==>
      Agree(Decide(m.s, op).next.tcb[t].status, Call(m, op, rest).frame[t])
  {
    hide Check, Prologue, Rejected, Queued, Tidy, Closed;
    LiveIsRunning(m);
    CallSane(m.s, op);
    PrologueAgrees(m.s, m.frame, op);
    var u, frame := Tick(Prologue(m.s, op)), Call(m, op, rest).frame;
    forall t | t in u.tcb && u.current != Some(t) ensures Agree(u.tcb[t].status, frame[t]) {
      assert u.tcb[t] == Prologue(m.s, op).tcb[t];
    }
    CheckAgrees(u, frame);
  }

  lemma CallSafe(m: Machine, op: Op, rest: Script)
    requires Safe(m) && m.frame[m.s.current.value] == Live && !Rejected(m.s, op)
    requires op.Wait? ==> m.s.ready != []
    ensures Safe(Call(m, op, rest))
  {
    hide Check, Prologue, Rejected, Queued, Tidy, Agree, Decide;
    LiveIsRunning(m);
    CallSane(m.s, op);
    CallAgrees(m, op, rest);
  }

  lemma LeaveSafe(m: Machine)
    requires Safe(m) && m.frame[m.s.current.value] == Live
    ensures Safe(Leave(m))
  {
    hide Check, Queued, Sorted;
    LiveIsRunning(m);
    var u := Terminate(m.s, m.s.current.value);
    TerminateUndecided(m.s);
    CheckSane(u);
    CheckAgrees(u, Leave(m).frame);
  }

  /** One step keeps every thread accounted for, unless it is a lone wait. */
  lemma StepSafe(m: Machine)
    requires Safe(m) && !LoneWait(m)
    ensures Safe(Step(m))
  {
    hide Check, Queued, Sorted, Prologue, Tick, Decide;
    var c := m.s.current.value;
    if m.frame[c] == Live {
      match m.script[c]
      case Done => LeaveSafe(m);
      case Then(op, rest) => if !Rejected(m.s, op) { CallSafe(m, op, rest); }
    }
  }

  /** A lone wait leaves the caller running and enrolled at once: it occurs twice. */
  lemma LoneWaitBreaksPartition(m: Machine)
    requires Safe(m) && LoneWait(m)
    ensures !Partition(Step(m).s)
  {
    hide Tidy, Push, Sorted, Flatten;
    var c := m.s.current.value;
    var io := m.script[c].op.io;
    assert Closed(m.s) by { SafeClosed(m); }
    EnrolMoves(m.s, io);
    var s' := Step(m).s;
    assert s'.current == Some(c) && Queued(s') == Queued(m.s) + multiset{c};
    assert (Queued(s') + multiset{c})[c] == 2 + Queued(m.s)[c];
  }

  lemma SafeClosed(m: Machine)
    requires Safe(m)
    ensures Closed(m.s)
  {
  }

  /** Exactly when a step keeps each thread in exactly one place. */
  lemma PartitionKeptExactly(m: Machine)
    requires Safe(m)
    ensures Partition(Step(m).s) <==> !LoneWait(m)
  {
    if LoneWait(m) {
      LoneWaitBreaksPartition(m);
    } else {
      StepSafe(m);
    }
  }

  lemma BootSafe(quantum: int, io: nat, priority: nat, body: Script)
    requires 1 <= quantum && priority <= MAX_PRIORITY
    ensures Safe(Boot(quantum, io, priority, body))
  {
    hide Check, Push, Slot, Sorted, Flatten;
    var s, t := Init(quantum, io), NewTid(Init(quantum, io), priority);
    InitTidy(quantum, io);
    CreateUndecided(s, priority);
    var u := MarkAsReady(Create(s, priority), t);
    CheckSane(u);
    CheckAgrees(u, Boot(quantum, io, priority, body).frame);
  }

  lemma InitTidy(quantum: int, io: nat)
    requires 1 <= quantum
    ensures Tidy(Init(quantum, io)) && Queued(Init(quantum, io)) == multiset(Init(quantum, io).tcb.Keys)
  {
    FlattenEmpty(Init(quantum, io).waiting);
    assert Init(quantum, io).tcb.Keys == {};
  }

  lemma {:induction false} FlattenEmpty(w: seq<seq<Tid>>)
    requires forall d :: 0 <= d < |w| ==> w[d] == []
    ensures Flatten(w) == []
  {
    if w != [] {
      FlattenEmpty(w[1..]);
    }
  }

  lemma {:induction false} AfterAdds(m: Machine, i: nat, j: nat)
    requires WellFormed(m)
    ensures After(After(m, i), j) == After(m, i + j)
  {
    hide Step, WellFormed;
    if j != 0 {
      AfterAdds(m, i, j - 1);
    }
  }

  /** No thread waits alone in the first `n` steps. */
  ghost predicate Disciplined(m: Machine, n: nat)
    requires WellFormed(m)
  {
    forall i :: 0 <= i < n ==> !LoneWait(After(m, i))
  }

  lemma DisciplinedBefore(m: Machine, n: nat, i: nat)
    requires WellFormed(m) && Disciplined(m, n) && i <= n
    ensures Disciplined(m, i)
  {
    hide After, LoneWait, WellFormed;
  }

  lemma {:induction false} RunSafe(m: Machine, n: nat)
    requires WellFormed(m) && Safe(m) && Disciplined(m, n)
    ensures Safe(After(m, n))
  {
    hide Step, Safe, LoneWait, WellFormed;
    if n != 0 {
      RunSafe(m, n - 1);
      StepSafe(After(m, n - 1));
    }
  }

  /** The number of places a thread is found in. */
  ghost function Places(s: Sched, t: Tid): nat {
    (if s.current == Some(t) then 1 else 0)
    + multiset(s.ready)[t] + multiset(s.finished)[t] + multiset(Flatten(s.waiting))[t]
  }

  /** The status of a thread names the place it is in. A terminated thread is finished, or it was the
      last one and is still the current one. */
  ghost predicate Located(s: Sched, t: Tid)
    requires t in s.tcb
  {
    match s.tcb[t].status
    case Ready => t in s.ready
    case Waiting => t in Flatten(s.waiting)
    case Running => s.current == Some(t)
    case Terminated => t in s.finished || (s.current == Some(t) && s.ready == [])
  }

  /** Over whole runs: each thread is in exactly one place, the label of a thread names that place,
      as many threads exist as were counted, and the running thread has at least the priority of
      every ready one. */
  lemma ConservationAndPriority(quantum: int, io: nat, priority: nat, body: Script, n: nat)
    requires 1 <= quantum && priority <= MAX_PRIORITY
    requires Disciplined(Boot(quantum, io, priority, body), n)
    ensures var s := After(Boot(quantum, io, priority, body), n).s;
      && |s.tcb| == s.count
      && (forall t :: Places(s, t) == if t in s.tcb then 1 else 0)
      && (forall t :: t in s.tcb ==> Located(s, t))
      && (forall t :: t in s.ready ==> t.priority <= s.current.value.priority)
  {
    var m := Boot(quantum, io, priority, body);
    hide Boot, Step, After;
    BootSafe(quantum, io, priority, body);
    RunSafe(m, n);
    SaneMeans(After(m, n).s);
  }

  /** Over whole runs the one sorted list of ready threads, and each list of waiting ones, is a
      multi-level queue: six queues, of the priorities from 5 down to 0, one behind the other. */
  lemma QueuesAreLevels(quantum: int, io: nat, priority: nat, body: Script, n: nat)
    requires 1 <= quantum && priority <= MAX_PRIORITY
    requires Disciplined(Boot(quantum, io, priority, body), n)
    ensures var s := After(Boot(quantum, io, priority, body), n).s;
      && s.ready == Levels(s.ready, MAX_PRIORITY)
      && forall d :: 0 <= d < |s.waiting| ==> s.waiting[d] == Levels(s.waiting[d], MAX_PRIORITY)
  {
    hide Boot, Step, After, Queued, Partition, Levels;
    var m := Boot(quantum, io, priority, body);
    BootSafe(quantum, io, priority, body);
    RunSafe(m, n);
    var s := After(m, n).s;
    SortedIsLevels(s.ready);
    forall d | 0 <= d < |s.waiting| ensures s.waiting[d] == Levels(s.waiting[d], MAX_PRIORITY) {
      SortedIsLevels(s.waiting[d]);
    }
  }

  lemma SaneMeans(s: Sched)
    requires Sane(s)
    ensures |s.tcb| == s.count
    ensures forall t :: Places(s, t) == if t in s.tcb then 1 else 0
    ensures forall t :: t in s.tcb ==> Located(s, t)
    ensures forall t :: t in s.ready ==> t.priority <= s.current.value.priority
  {
    hide Queued, Flatten;
    forall t ensures Places(s, t) == if t in s.tcb then 1 else 0 {
      OnePlace(s, t);
    }
    forall t | t in s.tcb ensures Located(s, t) {
      LabelNamesPlace(s, t);
    }
  }

  lemma OnePlace(s: Sched, t: Tid)
    requires Closed(s) && Partition(s)
    ensures Places(s, t) == if t in s.tcb then 1 else 0
  {
    assert (Queued(s) + multiset{s.current.value})[t] == multiset(s.tcb.Keys)[t];
  }

  lemma LabelNamesPlace(s: Sched, t: Tid)
    requires Sane(s) && t in s.tcb
    ensures Located(s, t)
  {
    OnePlace(s, t);
    if t in Flatten(s.waiting) {
      var d := FromFlatten(s.waiting, t);
    }
    assert t in s.ready || t in s.finished || t in Flatten(s.waiting) || s.current == Some(t);
  }
}
