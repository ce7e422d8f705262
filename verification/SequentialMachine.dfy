/** The schedule as one sequential program: at each step the current thread resumes, makes its next
    API call up to the hand-off, or leaves. Handlers are finite scripts of API calls. */
module SequentialMachine {
  import opened StableOrder
  import opened Scheduling
  import opened Conservation

  datatype Op =
    | Exec
    | Wait(io: Device)
    | Signal(io: Device)
    | Fork(priority: nat, body: Script)

  datatype Script = Done | Then(op: Op, rest: Script)

  datatype Ret = Void | Code(n: int) | Child(tid: Tid) | InvalidTid

  /** How far a thread is, seen from the schedule: not started, inside an API call whose result is
      known, in its handler, or past it. */
  datatype Frame = Fresh | Pending(ret: Ret) | Live | Gone

  datatype Event =
    | Began(tid: Tid)
    | Called(tid: Tid, op: Op)
    | Dispatched(tid: Tid)
    | Returned(tid: Tid, ret: Ret)
    | Left(tid: Tid)

  datatype Machine = Machine(s: Sched, script: map<Tid, Script>, frame: map<Tid, Frame>, log: seq<Event>)

  /** The calls that fail before they touch the scheduler. */
  predicate Rejected(s: Sched, op: Op) {
    match op
    case Exec => false
    case Wait(io) => |s.waiting| <= io
    case Signal(io) => |s.waiting| <= io
    case Fork(priority, _) => MAX_PRIORITY < priority
  }

  function Refusal(op: Op): Ret {
    if op.Fork? then InvalidTid else Code(-1)
  }

  /** What a call does before it enters `so_exec`. */
  function Prologue(s: Sched, op: Op): (s': Sched)
    requires Closed(s) && s.current.Some? && !Rejected(s, op)
    ensures Closed(s') && s'.current == s.current && |s'.waiting| == |s.waiting|
    ensures s'.tcb.Keys == s.tcb.Keys + if op.Fork? then {NewTid(s, op.priority)} else {}
  {
    match op
    case Exec => s
    case Wait(io) => Enrol(s, io)
    case Signal(io) => WakeAll(s, io)
    case Fork(priority, _) => MarkAsReady(Create(s, priority), NewTid(s, priority))
  }

  /** What a call will return once its caller runs again. */
  function Answer(s: Sched, op: Op): Ret
    requires !Rejected(s, op)
  {
    match op
    case Exec => Void
    case Wait(_) => Code(0)
    case Signal(io) => Code(|s.waiting[io]|)
    case Fork(priority, _) => Child(NewTid(s, priority))
  }

  /** The scheduling decision of a call. */
  function Decide(s: Sched, op: Op): (v: Verdict)
    requires Closed(s) && s.current.Some? && !Rejected(s, op)
    ensures Closed(v.next) && v.next.current.Some? && |v.next.waiting| == |s.waiting|
    ensures v.next.tcb.Keys == s.tcb.Keys + if op.Fork? then {NewTid(s, op.priority)} else {}
  {
    Check(Tick(Prologue(s, op)))
  }

  function Announce(v: Verdict): seq<Event>
    requires v.next.current.Some?
  {
    if v.switched then [Dispatched(v.next.current.value)] else []
  }

  ghost predicate WellFormed(m: Machine) {
    Closed(m.s) && m.s.current.Some? && m.script.Keys == m.s.tcb.Keys && m.frame.Keys == m.s.tcb.Keys
  }

  /** The machine after the first `so_fork`, made by the main thread. */
  function Boot(quantum: int, io: nat, priority: nat, body: Script): (m: Machine)
    ensures WellFormed(m)
  {
    var s := Init(quantum, io);
    var t := NewTid(s, priority);
    var v := Check(MarkAsReady(Create(s, priority), t));
    Machine(v.next, map[t := body], map[t := Fresh], Announce(v))
  }

  function Call(m: Machine, op: Op, rest: Script): (m': Machine)
    requires WellFormed(m) && !Rejected(m.s, op)
    ensures WellFormed(m')
  {
    var c := m.s.current.value;
    var v := Decide(m.s, op);
    var script, frame := m.script[c := rest], m.frame[c := Pending(Answer(m.s, op))];
    Machine(v.next,
            if op.Fork? then script[NewTid(m.s, op.priority) := op.body] else script,
            if op.Fork? then frame[NewTid(m.s, op.priority) := Fresh] else frame,
            m.log + [Called(c, op)] + Announce(v))
  }

  function Refuse(m: Machine, op: Op, rest: Script): (m': Machine)
    requires WellFormed(m)
    ensures WellFormed(m')
  {
    var c := m.s.current.value;
    m.(script := m.script[c := rest], log := m.log + [Called(c, op), Returned(c, Refusal(op))])
  }

  function Leave(m: Machine): (m': Machine)
    requires WellFormed(m)
    ensures WellFormed(m')
  {
    var c := m.s.current.value;
    var v := Check(Terminate(m.s, c));
    m.(s := v.next, frame := m.frame[c := Gone], log := m.log + [Left(c)] + Announce(v))
  }

  function Resume(m: Machine): (m': Machine)
    requires WellFormed(m)
    ensures WellFormed(m')
  {
    var c := m.s.current.value;
    m.(frame := m.frame[c := Live],
       log := m.log + [if m.frame[c].Pending? then Returned(c, m.frame[c].ret) else Began(c)])
  }

  /** One step of the schedule. The machine rests when the current thread is past its handler. */
  function Step(m: Machine): (m': Machine)
    requires WellFormed(m)
    ensures WellFormed(m')
  {
    var c := m.s.current.value;
    match m.frame[c]
    case Gone => m
    case Fresh => Resume(m)
    case Pending(_) => Resume(m)
    case Live =>
      match m.script[c]
      case Done => Leave(m)
      case Then(op, rest) => if Rejected(m.s, op) then Refuse(m, op, rest) else Call(m, op, rest)
  }

  function After(m: Machine, n: nat): (m': Machine)
    requires WellFormed(m)
    ensures WellFormed(m')
  {
    if n == 0 then m else Step(After(m, n - 1))
  }

  /** Nothing is left to run. */
  ghost predicate Resting(m: Machine)
    requires WellFormed(m)
  {
    m.frame[m.s.current.value] == Gone
  }

  /** The current thread is about to call `so_wait` although no other thread is ready. */
  ghost predicate LoneWait(m: Machine)
    requires WellFormed(m)
  {
    var c := m.s.current.value;
    m.frame[c] == Live && m.script[c].Then? && m.script[c].op.Wait? && !Rejected(m.s, m.script[c].op)
    && m.s.ready == []
  }

  /** The scheduler's data is sane and says of each thread what the thread is doing. */
  ghost predicate Safe(m: Machine) {
    && WellFormed(m)
    && Sane(m.s)
    && forall t :: t in m.s.tcb ==> Agree(m.s.tcb[t].status, m.frame[t])
  }

  ghost predicate Agree(status: Status, frame: Frame) {
    match status
    case Ready => frame.Fresh? || frame.Pending?
    case Waiting => frame.Pending?
    case Running => !frame.Gone?
    case Terminated => frame.Gone?
  }
}
