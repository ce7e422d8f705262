/** What `so_end` reclaims, with no rule asked of the program: no thread is ever forgotten, and none is
    reclaimed twice exactly when each thread was in one place only. */
module Reclaiming {
  import opened StableOrder
  import opened Scheduling
  import opened Conservation
  import opened SequentialMachine
  import opened MachineSafety
  import opened ScheduleOrder
  import opened Interleaving
  import opened MutualExclusion
  import opened Refinement
  import opened Completion

  ghost predicate Waits(s: Sched, t: Tid) {
    exists d :: 0 <= d < |s.waiting| && t in s.waiting[d]
  }

  ghost predicate InQueue(s: Sched, t: Tid) {
    t in s.ready || t in s.finished || Waits(s, t)
  }

  /** No thread is lost: each has the processor or is in some queue, and in a waiting queue if it is
      labelled waiting. */
  ghost predicate Covered(s: Sched) {
    && (forall t :: t in s.tcb ==> s.current == Some(t) || InQueue(s, t))
    && (forall t :: t in s.tcb && s.tcb[t].status == Waiting ==> Waits(s, t))
  }

  lemma PlanNextCovered(s: Sched)
    requires Closed(s) && s.ready != [] && Covered(s)
    requires s.current.Some? ==> InQueue(s, s.current.value)
    ensures Covered(PlanNext(s))
  {
    var s' := PlanNext(s);
    assert s.ready == [s.ready[0]] + s.ready[1..];
    forall t | t in s.tcb ensures s'.current == Some(t) || InQueue(s', t) {
      SameWaits(s, s', t);
    }
    forall t | t in s'.tcb && s'.tcb[t].status == Waiting ensures Waits(s', t) {
      SameWaits(s, s', t);
    }
  }

  lemma SameWaits(s: Sched, s': Sched, t: Tid)
    requires s'.waiting == s.waiting
    ensures Waits(s', t) == Waits(s, t)
  {
  }

  lemma MarkAsReadyCovered(s: Sched, t: Tid)
    requires Closed(s) && t in s.tcb && Covered(s)
    ensures Covered(MarkAsReady(s, t)) && InQueue(MarkAsReady(s, t), t)
    ensures MarkAsReady(s, t).ready != [] && MarkAsReady(s, t).current == s.current
  {
    hide Push;
    PushContents(s.ready, t);
    forall u ensures Waits(MarkAsReady(s, t), u) == Waits(s, u) {
      SameWaits(s, MarkAsReady(s, t), u);
    }
  }

  lemma RetireCovered(s: Sched, t: Tid)
    requires Closed(s) && t in s.tcb && Covered(s)
    ensures Covered(Retire(s, t)) && InQueue(Retire(s, t), t)
    ensures Retire(s, t).ready == s.ready && Retire(s, t).current == s.current
  {
    hide Push;
    PushContents(s.finished, t);
    forall u ensures Waits(Retire(s, t), u) == Waits(s, u) {
      SameWaits(s, Retire(s, t), u);
    }
  }

  /** A change of labels that makes nobody waiting. */
  lemma RelabelCovered(s: Sched, tcb: map<Tid, Tcb>)
    requires Covered(s) && tcb.Keys == s.tcb.Keys
    requires forall t :: t in tcb && tcb[t].status == Waiting ==> s.tcb[t].status == Waiting
    ensures Covered(s.(tcb := tcb))
  {
    forall u ensures Waits(s.(tcb := tcb), u) == Waits(s, u) {
      SameWaits(s, s.(tcb := tcb), u);
    }
  }

  lemma CheckCovered(u: Sched)
    requires Checkable(u) && Covered(u)
    ensures Covered(Check(u).next)
  {
    hide Covered, InQueue, Waits, Push, PlanNext, Slot;
    if u.ready != [] {
      if u.current.None? {
        PlanNextCovered(u);
      } else {
        CurrentCovered(u);
      }
    }
  }

  lemma CurrentCovered(u: Sched)
    requires Checkable(u) && Covered(u) && u.current.Some? && u.ready != []
    ensures Covered(Check(u).next)
  {
    hide Covered, InQueue, Waits, Push, PlanNext, Slot, MarkAsReady, Retire;
    var c := u.current.value;
    if u.tcb[c].status == Waiting {
      WaiterQueued(u, c);
      PlanNextCovered(u);
    } else if u.tcb[c].status == Terminated {
      RetireCovered(u, c);
      PlanNextCovered(Retire(u, c));
    } else if Check(u).switched {
      MarkAsReadyCovered(u, c);
      PlanNextCovered(MarkAsReady(u, c));
    } else {
      RelabelCovered(u, Check(u).next.tcb);
    }
  }

  lemma WaiterQueued(s: Sched, t: Tid)
    requires Covered(s) && t in s.tcb && s.tcb[t].status == Waiting
    ensures InQueue(s, t)
  {
  }

  lemma EnrolCovered(s: Sched, io: nat)
    requires Closed(s) && s.current.Some? && io < |s.waiting| && Covered(s)
    ensures Covered(Enrol(s, io))
  {
    hide Push;
    var c, s' := s.current.value, Enrol(s, io);
    PushContents(s.waiting[io], c);
    assert c in s'.waiting[io];
    forall t | Waits(s, t) ensures Waits(s', t) {
      var d :| 0 <= d < |s.waiting| && t in s.waiting[d];
      assert t in s'.waiting[d];
    }
  }

  lemma WakeAllCovered(s: Sched, io: nat)
    requires Closed(s) && io < |s.waiting| && Covered(s)
    ensures Covered(WakeAll(s, io))
  {
    hide Push, WakeAll;
    SignalWakesExactly(s, io);
    PushAllMembers(s.ready, s.waiting[io]);
    var s' := WakeAll(s, io);
    forall t | Waits(s, t) ensures t in s.waiting[io] || Waits(s', t) {
      var d :| 0 <= d < |s.waiting| && t in s.waiting[d];
      if d != io {
        assert t in s'.waiting[d];
      }
    }
  }

  lemma PushAllMembers(q: seq<Tid>, ts: seq<Tid>)
    ensures forall t :: t in PushAll(q, ts) <==> t in q || t in ts
  {
    hide PushAll;
    PushAllContents(q, ts);
    forall t ensures t in PushAll(q, ts) <==> t in q || t in ts {
      assert t in PushAll(q, ts) <==> t in multiset(PushAll(q, ts));
    }
  }

  lemma CreateCovered(s: Sched, priority: nat)
    requires Closed(s) && Covered(s)
    ensures Covered(MarkAsReady(Create(s, priority), NewTid(s, priority)))
  {
    hide Push;
    var t := NewTid(s, priority);
    var s' := MarkAsReady(Create(s, priority), t);
    PushContents(s.ready, t);
    forall u ensures Waits(s', u) == Waits(s, u) {
      SameWaits(s, s', u);
    }
  }

  lemma AtCheckCovered(m: Machine)
    requires WellFormed(m) && Schedules(m) && Covered(m.s)
    ensures Covered(AtCheck(m))
  {
    hide Covered, Enrol, WakeAll, MarkAsReady, Create;
    var c := m.s.current.value;
    match m.script[c]
    case Done => RelabelCovered(m.s, Terminate(m.s, c).tcb);
    case Then(op, _) =>
      match op {
        case Exec =>
        case Wait(io) => EnrolCovered(m.s, io);
        case Signal(io) => WakeAllCovered(m.s, io);
        case Fork(priority, _) => CreateCovered(m.s, priority);
      }
      RelabelCovered(Prologue(m.s, op), Tick(Prologue(m.s, op)).tcb);
  }

  lemma {:induction false} RunCovered(m: Machine, n: nat)
    requires WellFormed(m) && Covered(m.s)
    ensures Covered(After(m, n).s)
  {
    hide Covered, Step, WellFormed, AtCheck, Schedules, Check;
    if n != 0 {
      RunCovered(m, n - 1);
      var before := After(m, n - 1);
      StepIsCheck(before);
      if Schedules(before) {
        AtCheckCovered(before);
        CheckCovered(AtCheck(before));
      }
    }
  }

  lemma BootCovered(quantum: int, io: nat, priority: nat, body: Script)
    ensures Covered(Boot(quantum, io, priority, body).s)
  {
    hide Check, Push;
    CreateCovered(Init(quantum, io), priority);
    CheckCovered(MarkAsReady(Create(Init(quantum, io), priority), NewTid(Init(quantum, io), priority)));
  }

  /** Over whole runs of any program, no thread is ever lost. */
  lemma NobodyLost(quantum: int, io: nat, priority: nat, body: Script, n: nat)
    ensures Covered(After(Boot(quantum, io, priority, body), n).s)
  {
    hide Covered, Boot;
    BootCovered(quantum, io, priority, body);
    RunCovered(Boot(quantum, io, priority, body), n);
  }

  lemma ReclaimOrderCounts(s: Sched, t: Tid)
    requires Closed(s) && s.current.Some? && Covered(s)
    ensures multiset(ReclaimOrder(s))[t] == (Queued(s) + multiset{s.current.value})[t]
    ensures t in s.tcb ==> 1 <= multiset(ReclaimOrder(s))[t]
    ensures t !in s.tcb ==> multiset(ReclaimOrder(s))[t] == 0
  {
    hide Flatten;
    if Waits(s, t) {
      var d :| 0 <= d < |s.waiting| && t in s.waiting[d];
      InFlatten(s.waiting, d, t);
    }
    if t in Flatten(s.waiting) {
      var d := FromFlatten(s.waiting, t);
    }
    assert t in s.ready <==> 1 <= multiset(s.ready)[t];
    assert t in s.finished <==> 1 <= multiset(s.finished)[t];
    assert t in Flatten(s.waiting) <==> 1 <= multiset(Flatten(s.waiting))[t];
  }

  /** The list that `so_end` works off names no thread twice exactly when each was in one place. */
  lemma ReclaimOrderExactly(s: Sched)
    requires Closed(s) && s.current.Some? && Covered(s)
    ensures (forall t :: multiset(ReclaimOrder(s))[t] <= 1) <==> Partition(s)
  {
    hide Covered, Closed, Queued, ReclaimOrder;
    forall t ensures multiset(ReclaimOrder(s))[t] == (Queued(s) + multiset{s.current.value})[t]
      && (t in s.tcb ==> 1 <= multiset(ReclaimOrder(s))[t])
      && (t !in s.tcb ==> multiset(ReclaimOrder(s))[t] == 0)
    {
      ReclaimOrderCounts(s, t);
    }
    if forall t :: multiset(ReclaimOrder(s))[t] <= 1 {
      forall t ensures (Queued(s) + multiset{s.current.value})[t] == multiset(s.tcb.Keys)[t] {
        assert multiset(ReclaimOrder(s))[t] <= 1;
      }
    } else {
      var t :| 1 < multiset(ReclaimOrder(s))[t];
      assert multiset(s.tcb.Keys)[t] <= 1;
    }
  }

  /** Once `so_end` got past its semaphore, its list names every forked thread, whatever the program
      did; it names none twice if and only if each thread was in exactly one place when `end` was
      posted. */
  lemma ReclaimsExactly(quantum: int, io: nat, priority: nat, body: Script, acts: seq<Actor>, w: World)
    requires priority <= MAX_PRIORITY
    requires Reaches(Initial(quantum, io, priority, body), acts, w) && w.main.Reclaiming?
    ensures InReclaimOrder(w.s, w.main.freed + w.main.todo)
    ensures forall t :: t in w.s.tcb ==> t in w.main.freed + w.main.todo
    ensures (forall t :: multiset(w.main.freed + w.main.todo)[t] <= 1) <==> Partition(w.s)
  {
    hide TokenAt, Complete, Boot, Reaches, After, Covered, Partition, ReclaimOrder, Closed, InReclaimOrder;
    var w0 := Initial(quantum, io, priority, body);
    InitialToken(quantum, io, priority, body);
    InitialReclaimsAll(quantum, io, priority, body);
    RunReclaimsAll(w0, ByMain, acts, w);
    var k, n := InterleavingsRefineSchedule(quantum, io, priority, body, acts, w);
    NobodyLost(quantum, io, priority, body, n);
    EndedState(w, k);
    ReclaimOrderExactly(w.s);
    ReclaimOrderInOrder(w.s);
    forall t | t in w.s.tcb ensures t in w.main.freed + w.main.todo {
      ReclaimOrderCounts(w.s, t);
      assert t in multiset(ReclaimOrder(w.s));
    }
  }

  lemma EndedState(w: World, k: Token)
    requires TokenAt(w, k) && w.main.Reclaiming?
    ensures Closed(w.s) && w.s.current.Some? && Complete(w, k).s == w.s
  {
    hide Labelled, Complete, Frames;
    assert Over(w, k);
    CompleteAfterFork(w, k);
  }
}
