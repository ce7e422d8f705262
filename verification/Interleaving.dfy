/** The scheduler as the operating system runs it: one program counter per thread, one for the main
    thread, and every access to a semaphore a step of its own. Each actor is deterministic; which
    actor moves next is not. */
module Interleaving {
  import opened StableOrder
  import opened Scheduling
  import opened SequentialMachine

  /** What a thread does after it posted a `running` semaphore at the end of `scheduler_check`: block
      on the semaphore of the thread it read as current in `so_exec`, or exit. */
  datatype Next = Park(own: Tid, ret: Ret) | Quit

  datatype Pc =
    | Start                                // at the `sem_wait` of `start_thread`
    | Handler                              // between API calls
    | Forking(child: Tid)                  // thread created, not yet marked as ready
    | Waking(io: Device, cnt: nat)         // in the loop of `so_signal`
    | Entering(ret: Ret)                   // at the entry of `so_exec`
    | Deciding(next: Next)                 // at the entry of `scheduler_check`
    | PostingEnd(target: Tid, next: Next)  // about to post `end`
    | Posting(target: Tid, next: Next)     // about to post a `running` semaphore
    | Blocking(own: Tid, ret: Ret)         // at the `sem_wait` of `so_exec`
    | Exiting                              // at `pthread_exit`
    | Exited

  datatype MainPc =
    | AtFork(priority: nat, body: Script)  // about to make the first `so_fork`
    | Marking(child: Tid)                  // thread created, not yet marked as ready
    | Checking                             // at the entry of `scheduler_check`
    | Releasing(target: Tid)               // about to post the first thread
    | Ending                               // at the test of `no_threads` in `so_end`
    | AwaitingEnd                          // at the `sem_wait` of `so_end`
    | Reclaiming(todo: seq<Tid>, freed: seq<Tid>)

  datatype World = World(
    s: Sched,
    script: map<Tid, Script>,
    log: seq<Event>,
    pc: map<Tid, Pc>,
    running: map<Tid, nat>,
    end: nat,
    main: MainPc)

  datatype Actor = Main | Thread(tid: Tid)

  /** The main thread initialised the scheduler and is about to fork. */
  function Initial(quantum: int, io: nat, priority: nat, body: Script): World {
    World(Init(quantum, io), map[], [], map[], map[], 0, AtFork(priority, body))
  }

  // ----- The token -----

  /** Where the right to touch the scheduler is: with the main thread, with a thread, or in the one
      positive `running` semaphore. */
  datatype Token = ByMain | Holder(tid: Tid) | Permit(tid: Tid)

  /** A thread that does not touch the scheduler, and whose next semaphore is its own. */
  ghost predicate Parked(t: Tid, pc: Pc) {
    pc.Start? || pc.Exiting? || pc.Exited? || (pc.Blocking? && pc.own == t)
  }

  ghost predicate OwnNext(t: Tid, next: Next) {
    next.Park? ==> next.own == t
  }

  /** A thread inside its handler or the scheduler: it is the current one, up to its decision. */
  ghost predicate Busy(s: Sched, t: Tid, pc: Pc)
    requires t in s.tcb
  {
    match pc
    case Handler => s.current == Some(t)
    case Forking(child) => s.current == Some(t) && child in s.tcb
    case Waking(io, _) => s.current == Some(t) && io < |s.waiting|
    case Entering(_) => s.current == Some(t)
    case Deciding(next) => s.current == Some(t) && OwnNext(t, next)
    case PostingEnd(target, next) =>
      s.current == Some(t) && target == t && next == Quit && s.tcb[t].status == Terminated && s.ready == []
    case Posting(target, next) =>
      s.current == Some(target) && target in s.tcb && OwnNext(t, next)
      && (target != t ==> s.tcb[target].status != Terminated)
    case _ => false
  }

  ghost predicate MainBusy(s: Sched, main: MainPc) {
    match main
    case AtFork(priority, _) => s.current == None && priority <= MAX_PRIORITY
    case Marking(child) => s.current == None && child in s.tcb
    case Checking => s.current == None && s.ready != []
    case Releasing(target) => s.current == Some(target) && target in s.tcb && s.tcb[target].status != Terminated
    case _ => false
  }

  ghost predicate MainIdle(s: Sched, main: MainPc) {
    main.Ending? || main.AwaitingEnd? || (main.Reclaiming? && forall t :: t in main.todo ==> t in s.tcb)
  }

  /** The thread is past its handler. */
  predicate Quitting(pc: Pc) {
    pc == Deciding(Quit) || (pc.PostingEnd? && pc.next == Quit) || (pc.Posting? && pc.next == Quit)
    || pc.Exiting? || pc.Exited?
  }

  /** The last thread found nothing ready: its own semaphore gets the last post, in vain. */
  ghost predicate Over(w: World, k: Token) {
    && !k.ByMain? && k.tid in w.pc && k.tid in w.s.tcb && w.s.tcb[k.tid].status == Terminated
    && (k.Holder? ==> w.pc[k.tid] == Posting(k.tid, Quit))
    && (k.Permit? ==> w.pc[k.tid].Exiting? || w.pc[k.tid].Exited?)
  }

  ghost predicate Placed(w: World, k: Token)
    requires w.pc.Keys == w.s.tcb.Keys
  {
    && (!k.ByMain? ==> k.tid in w.pc)
    && (k.Permit? ==> w.s.current == Some(k.tid))
    && (forall t :: t in w.pc ==> if k == Holder(t) then Busy(w.s, t, w.pc[t]) else Parked(t, w.pc[t]))
    && (if k.ByMain? then MainBusy(w.s, w.main) else MainIdle(w.s, w.main))
  }

  ghost predicate Counted(w: World, k: Token) {
    && (forall t :: t in w.running ==> w.running[t] == if k == Permit(t) then 1 else 0)
    && w.end + (if w.main.Reclaiming? then 1 else 0) == if Over(w, k) then 1 else 0
  }

  ghost predicate Labelled(w: World)
    requires w.pc.Keys == w.s.tcb.Keys
  {
    forall t :: t in w.pc && !Quitting(w.pc[t]) ==> w.s.tcb[t].status != Terminated
  }

  ghost predicate TokenAt(w: World, k: Token) {
    && Closed(w.s)
    && w.pc.Keys == w.s.tcb.Keys && w.running.Keys == w.s.tcb.Keys && w.script.Keys == w.s.tcb.Keys
    && Placed(w, k) && Counted(w, k) && Labelled(w)
  }

  ghost predicate Valid(w: World) {
    exists k :: TokenAt(w, k)
  }

  // ----- Steps -----

  /** The actor has a step: it is not blocked on a semaphore, in a join, or done. */
  predicate Enabled(w: World, a: Actor) {
    match a
    case Thread(t) =>
      t in w.pc && t in w.running &&
      (match w.pc[t]
       case Start => 0 < w.running[t]
       case Blocking(own, _) => own in w.running && 0 < w.running[own]
       case Exited => false
       case _ => true)
    case Main =>
      match w.main
      case AwaitingEnd => 0 < w.end
      case Reclaiming(todo, _) => todo != [] && todo[0] in w.pc && w.pc[todo[0]].Exited?
      case _ => true
  }

  function Goto(w: World, t: Tid, pc: Pc): World {
    w.(pc := w.pc[t := pc])
  }

  function Note(w: World, e: seq<Event>): World {
    w.(log := w.log + e)
  }

  /** The new thread exists from here on, blocked at its start. */
  function Spawn(w: World, priority: nat, body: Script): World
    requires Closed(w.s)
  {
    var child := NewTid(w.s, priority);
    w.(s := Create(w.s, priority), script := w.script[child := body], pc := w.pc[child := Start],
       running := w.running[child := 0])
  }

  /** The first step of an accepted call. */
  function Issue(w: World, t: Tid, op: Op, rest: Script): World
    requires TokenAt(w, Holder(t)) && w.pc[t] == Handler && !Rejected(w.s, op)
  {
    var w1 := Note(w, [Called(t, op)]).(script := w.script[t := rest]);
    match op
    case Exec => Goto(w1, t, Entering(Void))
    case Wait(io) => Goto(w1.(s := Enrol(w.s, io)), t, Entering(Code(0)))
    case Signal(io) => Goto(w1, t, Waking(io, 0))
    case Fork(priority, body) => Goto(Spawn(w1, priority, body), t, Forking(NewTid(w.s, priority)))
  }

  /** A step of a thread between two API calls. */
  function StepHandler(w: World, t: Tid): World
    requires TokenAt(w, Holder(t)) && w.pc[t] == Handler
  {
    match w.script[t]
    case Done => Goto(Note(w, [Left(t)]).(s := Terminate(w.s, t)), t, Deciding(Quit))
    case Then(op, rest) =>
      if Rejected(w.s, op) then
        Note(w, [Called(t, op), Returned(t, Refusal(op))]).(script := w.script[t := rest])
      else
        Issue(w, t, op, rest)
  }

  /** A step of a thread inside the scheduler. */
  function StepBusy(w: World, t: Tid): World
    requires TokenAt(w, Holder(t)) && w.pc[t] != Handler
  {
    hide Counted, Labelled;
    match w.pc[t]
    case Forking(child) => Goto(w.(s := MarkAsReady(w.s, child)), t, Entering(Child(child)))
    case Waking(io, cnt) =>
      if w.s.waiting[io] == [] then Goto(w, t, Entering(Code(cnt)))
      else Goto(w.(s := WakeOne(w.s, io)), t, Waking(io, cnt + 1))
    case Entering(ret) => Goto(w.(s := Tick(w.s)), t, Deciding(Park(w.s.current.value, ret)))
    case Deciding(next) =>
      var v := Check(w.s);
      var target := v.next.current.value;
      Goto(Note(w, Announce(v)).(s := v.next), t, if v.stop then PostingEnd(target, next) else Posting(target, next))
    case PostingEnd(target, next) => Goto(w.(end := w.end + 1), t, Posting(target, next))
    case Posting(target, next) =>
      Goto(w.(running := w.running[target := w.running[target] + 1]), t,
           if next.Park? then Blocking(next.own, next.ret) else Exiting)
  }

  /** A step of a thread outside handlers and the scheduler. */
  function StepParked(w: World, t: Tid): World
    requires Enabled(w, Thread(t)) && Parked(t, w.pc[t])
  {
    match w.pc[t]
    case Start => Goto(Note(w, [Began(t)]).(running := w.running[t := w.running[t] - 1]), t, Handler)
    case Blocking(own, ret) =>
      Goto(Note(w, [Returned(t, ret)]).(running := w.running[own := w.running[own] - 1]), t, Handler)
    case Exiting => Goto(w, t, Exited)
  }

  ghost predicate MainFormed(w: World) {
    match w.main
    case Marking(child) => child in w.s.tcb
    case Checking => Checkable(w.s)
    case Releasing(target) => target in w.running
    case _ => true
  }

  /** A step of the main thread. */
  function StepMain(w: World): World
    requires Closed(w.s) && MainFormed(w) && Enabled(w, Main)
  {
    match w.main
    case AtFork(priority, body) => Spawn(w, priority, body).(main := Marking(NewTid(w.s, priority)))
    case Marking(child) => w.(s := MarkAsReady(w.s, child), main := Checking)
    case Checking =>
      var v := Check(w.s);
      Note(w, Announce(v)).(s := v.next, main := Releasing(v.next.current.value))
    case Releasing(target) => w.(running := w.running[target := w.running[target] + 1], main := Ending)
    case Ending => w.(main := if w.s.count != 0 then AwaitingEnd else Reclaiming(ReclaimOrder(w.s), []))
    case AwaitingEnd => w.(end := w.end - 1, main := Reclaiming(ReclaimOrder(w.s), []))
    case Reclaiming(todo, freed) => w.(main := Reclaiming(todo[1..], freed + [todo[0]]))
  }

  lemma NotParkedHolds(w: World, t: Tid)
    requires Valid(w) && t in w.pc && !Parked(t, w.pc[t])
    ensures TokenAt(w, Holder(t))
  {
    var k :| TokenAt(w, k);
    assert k == Holder(t);
  }

  /** The step of an actor. */
  function Advance(w: World, a: Actor): World
    requires Valid(w) && Enabled(w, a)
  {
    if a.Main? then MainIsFormed(w); StepMain(w)
    else if w.pc[a.tid] == Handler then NotParkedHolds(w, a.tid); StepHandler(w, a.tid)
    else if w.pc[a.tid].Start? || w.pc[a.tid].Exiting? || w.pc[a.tid].Blocking? then
      OutsideParked(w, a.tid); StepParked(w, a.tid)
    else NotParkedHolds(w, a.tid); StepBusy(w, a.tid)
  }

  lemma MainIsFormed(w: World)
    requires Valid(w)
    ensures Closed(w.s) && MainFormed(w)
  {
    var k :| TokenAt(w, k);
  }

  lemma OutsideParked(w: World, t: Tid)
    requires Valid(w) && t in w.pc && (w.pc[t].Start? || w.pc[t].Exiting? || w.pc[t].Blocking?)
    ensures Parked(t, w.pc[t])
  {
    var k :| TokenAt(w, k);
  }
}
