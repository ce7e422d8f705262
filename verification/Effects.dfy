/** The scheduler's functions field by field, without naming what they are made of: what so_init sets
    up, what a call changes before the decision, and what the decision is. */
module Effects {
  import opened StableOrder
  import opened Scheduling
  import opened Conservation
  import opened SequentialMachine
  import opened MachineSafety
  import opened ScheduleOrder

  /** `so_init`: the devices asked for, nothing queued anywhere, nobody current. */
  lemma InitExactly(quantum: int, io: nat)
    ensures var s := Init(quantum, io);
      && s.quantum == quantum && s.count == 0 && s.current == None && s.tcb == map[]
      && s.ready == [] && s.finished == []
      && |s.waiting| == io && forall d :: 0 <= d < io ==> s.waiting[d] == []
  {
  }

  /** A push is one insertion, at the only place with no lower priority before it and one at it. */
  lemma PushExactly(q: seq<Tid>, t: Tid, k: nat)
    requires k <= |q| && (forall i :: 0 <= i < k ==> t.priority <= q[i].priority)
    requires k < |q| ==> q[k].priority < t.priority
    ensures Push(q, t) == q[..k] + [t] + q[k..]
  {
    var s := Slot(q, t);
    assert s == k;
  }

  // ----- The decision -----

  /** The caller has to give way: somebody is ready, and the caller cannot go on, is outranked, or used
      up its quantum and has an equal waiting for the processor. */
  ghost predicate MustSwitch(u: Sched)
    requires Checkable(u)
  {
    u.ready != [] &&
    (u.current.None?
     || u.tcb[u.current.value].status == Waiting
     || u.tcb[u.current.value].status == Terminated
     || u.current.value.priority < u.ready[0].priority
     || (u.current.value.priority == u.ready[0].priority && u.tcb[u.current.value].left == 0))
  }

  /** The caller goes back to the ready threads. */
  ghost predicate GoesBack(u: Sched)
    requires Checkable(u)
  {
    MustSwitch(u) && u.current.Some? && u.tcb[u.current.value].status !in {Waiting, Terminated}
  }

  /** `scheduler_check` in every state in which it can be called: who runs next, with how much time,
      where the caller goes, whether `end` is posted, and that nothing else changes. */
  lemma CheckExactly(u: Sched)
    requires Checkable(u)
    ensures var v, s' := Check(u), Check(u).next;
      && s'.quantum == u.quantum && s'.count == u.count && s'.waiting == u.waiting
      && (v.switched <==> MustSwitch(u))
      && (v.stop <==> u.ready == [] && u.tcb[u.current.value].status == Terminated)
      && s'.current == (if MustSwitch(u) then Some(u.ready[0]) else u.current)
      && s'.finished == (if MustSwitch(u) && u.current.Some? && u.tcb[u.current.value].status == Terminated
                         then Push(u.finished, u.current.value) else u.finished)
      && s'.ready == (if GoesBack(u) then Push(u.ready[1..], u.current.value)
                      else if MustSwitch(u) then u.ready[1..] else u.ready)
    ensures forall t :: t in u.tcb ==>
      Check(u).next.tcb[t]
        == if MustSwitch(u) && t == u.ready[0] then Tcb(Running, u.quantum)
           else if GoesBack(u) && u.current == Some(t) then Tcb(Ready, u.tcb[t].left)
           else if !MustSwitch(u) && u.ready != [] && u.current == Some(t) && u.tcb[t].left == 0
                then Tcb(u.tcb[t].status, u.quantum)
           else u.tcb[t]
  {
    hide Push, Slot;
    if GoesBack(u) {
      PushKeepsHead(u.ready, u.current.value);
    }
  }

  /** A thread that is dispatched gets a full quantum. */
  lemma SwitchGrantsQuantum(u: Sched)
    requires Checkable(u) && Check(u).switched
    ensures Check(u).next.tcb[Check(u).next.current.value] == Tcb(Running, u.quantum)
  {
    hide Check, Push;
    CheckExactly(u);
  }

  /** A caller whose quantum expired while only lower priorities are ready gets a new one and goes on;
      no queue moves and no other record changes. */
  lemma RefillExactly(u: Sched)
    requires Checkable(u) && u.current.Some? && u.tcb[u.current.value] == Tcb(Running, 0)
    requires u.ready != [] && u.ready[0].priority < u.current.value.priority
    ensures Check(u).next == u.(tcb := u.tcb[u.current.value := Tcb(Running, u.quantum)])
  {
    hide Check, Push;
    CheckExactly(u);
    assert Check(u).next.tcb == u.tcb[u.current.value := Tcb(Running, u.quantum)];
  }

  // ----- The calls -----

  /** The record of `t` when a call of `c` reaches `scheduler_check`: the caller has one unit less,
      and is labelled waiting if it waits; whom it signals is labelled ready. */
  ghost function RecordAt(s: Sched, op: Op, t: Tid): Tcb
    requires Closed(s) && s.current.Some? && !Rejected(s, op) && t in s.tcb
  {
    var left := if s.current == Some(t) then s.tcb[t].left - 1 else s.tcb[t].left;
    match op
    case Exec => Tcb(s.tcb[t].status, left)
    case Fork(_, _) => Tcb(s.tcb[t].status, left)
    case Wait(_) => Tcb(if s.current == Some(t) then Waiting else s.tcb[t].status, left)
    case Signal(io) => Tcb(if t in s.waiting[io] then Ready else s.tcb[t].status, left)
  }

  /** Each call, before the decision: the queues, the count and all records. */
  lemma CallExactly(s: Sched, op: Op) returns (u: Sched)
    requires Closed(s) && s.current.Some? && !Rejected(s, op)
    ensures Checkable(u) && u == Tick(Prologue(s, op)) && Decide(s, op) == Check(u)
    ensures u.quantum == s.quantum && u.current == s.current && u.finished == s.finished
    ensures u.count == s.count + if op.Fork? then 1 else 0
    ensures u.ready == match op
                       case Exec => s.ready
                       case Wait(_) => s.ready
                       case Signal(io) => PushAll(s.ready, s.waiting[io])
                       case Fork(priority, _) => Push(s.ready, Tid(s.count, priority))
    ensures u.waiting == match op
                         case Exec => s.waiting
                         case Wait(io) => s.waiting[io := Push(s.waiting[io], s.current.value)]
                         case Signal(io) => s.waiting[io := []]
                         case Fork(_, _) => s.waiting
    ensures u.tcb.Keys == s.tcb.Keys + if op.Fork? then {Tid(s.count, op.priority)} else {}
    ensures op.Fork? ==> u.tcb[Tid(s.count, op.priority)] == Tcb(Ready, s.quantum)
    ensures forall t :: t in s.tcb ==> u.tcb[t] == RecordAt(s, op, t)
  {
    hide Push, Slot, WakeAll, Check;
    u := Tick(Prologue(s, op));
    match op
    case Exec =>
    case Wait(_) =>
    case Signal(io) => SignalWakesExactly(s, io); WakeAllQuantum(s, io);
    case Fork(priority, _) => NewIsNew(s, priority);
  }

  /** A fork by the main thread, before the decision: nobody is charged. */
  lemma MainForkExactly(s: Sched, priority: nat) returns (u: Sched)
    requires Closed(s) && s.current.None?
    ensures NewTid(s, priority) in Create(s, priority).tcb
    ensures Checkable(u) && u == MarkAsReady(Create(s, priority), NewTid(s, priority))
    ensures u.quantum == s.quantum && u.current == None && u.finished == s.finished && u.waiting == s.waiting
    ensures u.count == s.count + 1 && u.ready == Push(s.ready, Tid(s.count, priority))
    ensures u.tcb == s.tcb[Tid(s.count, priority) := Tcb(Ready, s.quantum)]
  {
    hide Push;
    PushContents(s.ready, NewTid(s, priority));
    u := MarkAsReady(Create(s, priority), NewTid(s, priority));
  }

  /** The end of a handler, before the decision: one label changes. */
  lemma LeaveExactly(s: Sched, t: Tid)
    requires Closed(s) && t in s.tcb
    ensures Terminate(s, t) == s.(tcb := s.tcb[t := Tcb(Terminated, s.tcb[t].left)])
  {
  }

  /** The first fork, by the main thread: the new thread runs at once, with a full quantum. */
  lemma BootExactly(quantum: int, io: nat, priority: nat, body: Script)
    ensures var m, t := Boot(quantum, io, priority, body), Tid(0, priority);
      && m.s.quantum == quantum && m.s.count == 1 && m.s.current == Some(t)
      && m.s.ready == [] && m.s.finished == [] && m.s.tcb == map[t := Tcb(Running, quantum)]
      && |m.s.waiting| == io && (forall d :: 0 <= d < io ==> m.s.waiting[d] == [])
      && m.script == map[t := body] && m.frame == map[t := Fresh] && m.log == [Dispatched(t)]
  {
    hide Check, Push, Slot;
    var t := Tid(0, priority);
    var s := Init(quantum, io);
    var u := MarkAsReady(Create(s, priority), t);
    assert Push([], t) == [t] by { PushExactly([], t, 0); }
    assert u.ready == [t] && u.tcb == map[t := Tcb(Ready, quantum)];
    CheckExactly(u);
    assert Check(u).next.tcb == map[t := Tcb(Running, quantum)];
  }
}
