/** The scheduler's shared data on values, and what each function of the API does to it.

    Semaphores are not part of this state: a scheduling decision says whose `running` semaphore is
    posted and whether `end` is posted too, and the modules built on this one count the posts. */
module Scheduling {
  import opened StableOrder

  /** A device index that `(int)io` keeps: `so_wait` and `so_signal` compare it as a signed int. */
  type Device = n: nat | n < 0x8000_0000

  /** `SO_MAX_NUM_EVENTS`. */
  const MAX_EVENTS: nat := 256

  datatype Option<+T> = None | Some(value: T)

  datatype Status = Ready | Running | Waiting | Terminated

  /** The part of a thread's record that changes: its state and the time it has left. */
  datatype Tcb = Tcb(status: Status, left: int)

  /** The `scheduler` structure. `count` is `no_threads`; the number of devices is `|waiting|`. */
  datatype Sched = Sched(
    quantum: int,
    current: Option<Tid>,
    ready: seq<Tid>,
    finished: seq<Tid>,
    waiting: seq<seq<Tid>>,
    tcb: map<Tid, Tcb>,
    count: nat)

  /** Every thread that some field points to exists, and the next thread will be a new one. */
  ghost predicate Closed(s: Sched) {
    && (s.current.Some? ==> s.current.value in s.tcb)
    && (forall t :: t in s.ready ==> t in s.tcb)
    && (forall t :: t in s.finished ==> t in s.tcb)
    && (forall d :: 0 <= d < |s.waiting| ==> forall t :: t in s.waiting[d] ==> t in s.tcb)
    && (forall t :: t in s.tcb ==> t.serial < s.count)
  }

  /** A state in which `scheduler_check` finds a thread to hand the processor to. */
  ghost predicate Checkable(s: Sched) {
    Closed(s) && (s.current.None? ==> s.ready != [])
  }

  /** Nothing but statuses, times and the queues differs, and no thread got lost. */
  ghost predicate SameThreads(s: Sched, s': Sched) {
    s'.tcb.Keys == s.tcb.Keys && s'.count == s.count && s'.quantum == s.quantum
    && |s'.waiting| == |s.waiting|
  }

  function SetStatus(s: Sched, t: Tid, status: Status): Sched
    requires t in s.tcb
  {
    s.(tcb := s.tcb[t := s.tcb[t].(status := status)])
  }

  /** `so_init`. */
  function Init(quantum: int, io: nat): (s: Sched)
    ensures Closed(s)
  {
    Sched(quantum, None, [], [], seq(io, _ => []), map[], 0)
  }

  /** `mark_as_ready`. */
  function MarkAsReady(s: Sched, t: Tid): (s': Sched)
    requires Closed(s) && t in s.tcb
    ensures Closed(s') && SameThreads(s, s')
  {
    PushContents(s.ready, t);
    SetStatus(s, t, Ready).(ready := Push(s.ready, t))
  }

  /** `plan_next`, up to its post. */
  function PlanNext(s: Sched): (s': Sched)
    requires Closed(s) && s.ready != []
    ensures Closed(s') && SameThreads(s, s') && s'.current.Some?
  {
    var t := s.ready[0];
    s.(current := Some(t), ready := s.ready[1..], tcb := s.tcb[t := Tcb(Running, s.quantum)])
  }

  /** The branch of `scheduler_check` that retires a terminated thread. */
  function Retire(s: Sched, t: Tid): (s': Sched)
    requires Closed(s) && t in s.tcb
    ensures Closed(s') && SameThreads(s, s')
  {
    PushContents(s.finished, t);
    s.(finished := Push(s.finished, t))
  }

  /** A decision: the new state, whether `plan_next` ran, and whether `end` is posted. The thread
      whose semaphore is posted is always the new `current`. */
  datatype Verdict = Verdict(next: Sched, switched: bool, stop: bool)

  /** `scheduler_check`, up to its posts. */
  function Check(s: Sched): (v: Verdict)
    requires Checkable(s)
    ensures Closed(v.next) && SameThreads(s, v.next) && v.next.current.Some?
  {
    if s.ready == [] then
      Verdict(s, false, s.tcb[s.current.value].status == Terminated)
    else if s.current.None? || s.tcb[s.current.value].status == Waiting then
      Verdict(PlanNext(s), true, false)
    else
      var c := s.current.value;
      if s.tcb[c].status == Terminated then
        Verdict(PlanNext(Retire(s, c)), true, false)
      else if c.priority < s.ready[0].priority then
        Verdict(PlanNext(MarkAsReady(s, c)), true, false)
      else if s.tcb[c].left == 0 then
        if c.priority == s.ready[0].priority then
          Verdict(PlanNext(MarkAsReady(s, c)), true, false)
        else
          Verdict(s.(tcb := s.tcb[c := s.tcb[c].(left := s.quantum)]), false, false)
      else
        Verdict(s, false, false)
  }

  /** The first statement of `so_exec`. */
  function Tick(s: Sched): (s': Sched)
    requires Closed(s) && s.current.Some?
    ensures Checkable(s') && SameThreads(s, s')
  {
    var c := s.current.value;
    s.(tcb := s.tcb[c := s.tcb[c].(left := s.tcb[c].left - 1)])
  }

  /** The thread that the next `so_fork` creates. */
  function NewTid(s: Sched, priority: nat): Tid {
    Tid(s.count, priority)
  }

  lemma NewIsNew(s: Sched, priority: nat)
    requires Closed(s)
    ensures NewTid(s, priority) !in s.tcb
  {
  }

  /** The part of `so_fork` up to the increment of `no_threads`. */
  function Create(s: Sched, priority: nat): (s': Sched)
    requires Closed(s)
    ensures Closed(s') && s'.tcb.Keys == s.tcb.Keys + {NewTid(s, priority)}
    ensures NewTid(s, priority) !in s.tcb && |s'.waiting| == |s.waiting|
  {
    s.(tcb := s.tcb[NewTid(s, priority) := Tcb(Ready, s.quantum)], count := s.count + 1)
  }

  /** The part of `so_wait` before `so_exec`. */
  function Enrol(s: Sched, io: nat): (s': Sched)
    requires Closed(s) && s.current.Some? && io < |s.waiting|
    ensures Closed(s') && SameThreads(s, s') && s'.current == s.current
  {
    var c := s.current.value;
    PushContents(s.waiting[io], c);
    SetStatus(s, c, Waiting).(waiting := s.waiting[io := Push(s.waiting[io], c)])
  }

  /** One round of the loop of `so_signal`. */
  function WakeOne(s: Sched, io: nat): (s': Sched)
    requires Closed(s) && io < |s.waiting| && s.waiting[io] != []
    ensures Closed(s') && SameThreads(s, s') && s'.current == s.current
  {
    var t := s.waiting[io][0];
    assert t in s.waiting[io];
    MarkAsReady(s.(waiting := s.waiting[io := s.waiting[io][1..]]), t)
  }

  /** The whole loop of `so_signal`. */
  function WakeAll(s: Sched, io: nat): (s': Sched)
    requires Closed(s) && io < |s.waiting|
    ensures Closed(s') && SameThreads(s, s') && s'.current == s.current
    decreases |s.waiting[io]|
  {
    if s.waiting[io] == [] then s else WakeAll(WakeOne(s, io), io)
  }

  lemma WakeAllUnfolds(s: Sched, io: nat)
    requires Closed(s) && io < |s.waiting|
    ensures s.waiting[io] == [] ==> WakeAll(s, io) == s
    ensures s.waiting[io] != [] ==> WakeAll(s, io) == WakeAll(WakeOne(s, io), io)
    ensures s.waiting[io] != [] ==> |WakeOne(s, io).waiting[io]| == |s.waiting[io]| - 1
  {
  }

  /** The assignment of `start_thread` after the handler returned. */
  function Terminate(s: Sched, t: Tid): (s': Sched)
    requires Closed(s) && t in s.tcb
    ensures Closed(s') && SameThreads(s, s') && s'.current == s.current
  {
    SetStatus(s, t, Terminated)
  }

  /** All the threads waiting for some device, device by device. */
  function Flatten(w: seq<seq<Tid>>): seq<Tid> {
    if w == [] then [] else w[0] + Flatten(w[1..])
  }

  /** The order in which `so_end` reclaims threads. */
  function ReclaimOrder(s: Sched): seq<Tid> {
    (if s.current.Some? then [s.current.value] else []) + s.ready + s.finished + Flatten(s.waiting)
  }

  /** How many threads wait for the devices before `d`. */
  ghost function Before(w: seq<seq<Tid>>, d: nat): nat
    requires d <= |w|
  {
    if d == 0 then 0 else Before(w, d - 1) + |w[d - 1]|
  }

  /** The queue `part` stands in `q`, in its order, from index `k` on. */
  ghost predicate StandsAt(q: seq<Tid>, k: nat, part: seq<Tid>) {
    k + |part| <= |q| && q[k..k + |part|] == part
  }

  /** A list of threads by index: the current thread, the ready ones, the finished ones, and then device
      by device those that wait, each group in the order of its queue. */
  ghost predicate InReclaimOrder(s: Sched, q: seq<Tid>) {
    var c := if s.current.Some? then 1 else 0;
    var w := c + |s.ready| + |s.finished|;
    && |q| == w + Before(s.waiting, |s.waiting|)
    && (s.current.Some? ==> q[0] == s.current.value)
    && StandsAt(q, c, s.ready)
    && StandsAt(q, c + |s.ready|, s.finished)
    && (forall d :: 0 <= d < |s.waiting| ==> StandsAt(q, w + Before(s.waiting, d), s.waiting[d]))
  }
}
