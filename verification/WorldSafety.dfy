/** What the schedule's safety says about the world while threads run: queues and program counters
    agree, no post is wasted, and the binary semaphores of the Windows version suffice. */
module WorldSafety {
  import opened StableOrder
  import opened Scheduling
  import opened Conservation
  import opened SequentialMachine
  import opened MachineSafety
  import opened Interleaving
  import opened MutualExclusion
  import opened Refinement

  /** The program counter of a thread with the given status: a ready or waiting thread is at the
      semaphore it is woken through, or on its way there; a terminated one is past its handler. */
  ghost predicate CounterAgrees(t: Tid, status: Status, pc: Pc) {
    match status
    case Ready => pc.Start? || (pc.Blocking? && pc.own == t) || (pc.Posting? && pc.next.Park? && pc.next.own == t)
    case Waiting => (pc.Blocking? && pc.own == t) || (pc.Posting? && pc.next.Park? && pc.next.own == t)
    case Running => !Quitting(pc)
    case Terminated => Quitting(pc)
  }

  /** Whenever no decision is pending, in particular whenever handler code runs, in any interleaving
      in which nobody waited with nobody ready so far: each thread is in exactly one place, the running
      thread is outranked by no ready one, and all program counters agree with the queues. */
  lemma CountersAgree(quantum: int, io: nat, priority: nat, body: Script, acts: seq<Actor>, w: World)
    requires 1 <= quantum && priority <= MAX_PRIORITY
    requires Disciplined(Boot(quantum, io, priority, body), |acts|)
    requires Reaches(Initial(quantum, io, priority, body), acts, w) && Settled(w)
    ensures w.pc.Keys == w.s.tcb.Keys
    ensures forall t :: Places(w.s, t) == if t in w.s.tcb then 1 else 0
    ensures forall t :: t in w.s.tcb ==> Located(w.s, t) && CounterAgrees(t, w.s.tcb[t].status, w.pc[t])
    ensures forall t :: t in w.s.ready ==> w.s.current.Some? && t.priority <= w.s.current.value.priority
  {
    hide TokenAt, Complete, Boot, Reaches, After, Disciplined, Safe, WellFormed, Places, Located, CounterAgrees,
      DecisionAhead, Settled;
    var k, n := SafeSoFar(quantum, io, priority, body, acts, w);
    SettledMeans(w, k);
    UndecidedNone(w, k);
    forall t | t in w.s.tcb ensures Located(w.s, t) && CounterAgrees(t, w.s.tcb[t].status, w.pc[t]) {
      CounterOf(w, k, t);
    }
  }

  /** What a reachable world stands for is safe when nobody waited with nobody ready so far. */
  lemma SafeSoFar(quantum: int, io: nat, priority: nat, body: Script, acts: seq<Actor>, w: World)
    returns (k: Token, n: nat)
    requires 1 <= quantum && priority <= MAX_PRIORITY
    requires Disciplined(Boot(quantum, io, priority, body), |acts|)
    requires Reaches(Initial(quantum, io, priority, body), acts, w)
    ensures TokenAt(w, k) && n <= |acts|
    ensures Complete(w, k) == After(Boot(quantum, io, priority, body), n) && Safe(Complete(w, k))
  {
    hide TokenAt, Complete, Boot, Reaches, After, Disciplined, Safe, WellFormed;
    k, n := InterleavingsRefineSchedule(quantum, io, priority, body, acts, w);
    DisciplinedBefore(Boot(quantum, io, priority, body), |acts|, n);
    BootSafe(quantum, io, priority, body);
    RunSafe(Boot(quantum, io, priority, body), n);
  }

  lemma UndecidedNone(w: World, k: Token)
    requires TokenAt(w, k) && Safe(Complete(w, k)) && DecisionAhead(w, k) == None
    ensures Sane(w.s) && w.pc.Keys == w.s.tcb.Keys
    ensures forall t :: Places(w.s, t) == if t in w.s.tcb then 1 else 0
    ensures forall t :: t in w.s.tcb ==> Located(w.s, t)
    ensures forall t :: t in w.s.ready ==> w.s.current.Some? && t.priority <= w.s.current.value.priority
  {
    hide Complete, Frames, Closed, Labelled, Counted, Queued, Places, Located;
    NothingAhead(w, k);
    CompleteAfterFork(w, k);
    SaneMeans(w.s);
  }

  lemma CounterOf(w: World, k: Token, t: Tid)
    requires TokenAt(w, k) && Safe(Complete(w, k)) && DecisionAhead(w, k) == None && t in w.s.tcb
    ensures CounterAgrees(t, w.s.tcb[t].status, w.pc[t])
  {
    hide Complete, Frames, Closed, Labelled, Counted, Sane, WellFormed;
    NothingAhead(w, k);
    CompleteAfterFork(w, k);
    FramesAt(w.s, w.pc, t);
    assert Agree(w.s.tcb[t].status, FrameOf(w.s, w.pc[t]));
    HolderCounter(w, k, t);
  }

  lemma HolderCounter(w: World, k: Token, t: Tid)
    requires TokenAt(w, k) && DecisionAhead(w, k) == None && t in w.pc
    ensures Parked(t, w.pc[t]) || w.pc[t].Handler? || w.pc[t].PostingEnd? || w.pc[t].Posting?
    ensures w.pc[t].PostingEnd? ==> w.pc[t].next == Quit
    ensures w.pc[t].Posting? ==> OwnNext(t, w.pc[t].next)
  {
    hide Closed, Labelled, Counted;
  }

  /** No wakeup is lost: a permit is always one that its thread can take, at the `sem_wait` where it
      blocks, except the last post to the thread that ended the run. */
  lemma NoLostWakeup(quantum: int, io: nat, priority: nat, body: Script, acts: seq<Actor>, w: World, t: Tid)
    requires 1 <= quantum && priority <= MAX_PRIORITY
    requires Disciplined(Boot(quantum, io, priority, body), |acts|)
    requires Reaches(Initial(quantum, io, priority, body), acts, w)
    requires t in w.running && 0 < w.running[t]
    ensures t in w.pc && t in w.s.tcb
    ensures (Enabled(w, Thread(t)) && !w.pc[t].Exiting?)
         || (w.s.tcb[t].status == Terminated && w.s.ready == [] && (w.pc[t].Exiting? || w.pc[t].Exited?))
  {
    hide Reaches, Complete, Boot, Disciplined, Places, CounterAgrees, Located, Enabled, TokenAt, Settled;
    var k, n := SafeSoFar(quantum, io, priority, body, acts, w);
    PermitIsToken(w, k, t);
    SettledMeans(w, k);
    CountersAgree(quantum, io, priority, body, acts, w);
    PermitTaken(w, t);
  }

  lemma PermitIsToken(w: World, k: Token, t: Tid)
    requires TokenAt(w, k) && t in w.running && 0 < w.running[t]
    ensures k == Permit(t) && t in w.s.tcb && DecisionAhead(w, k) == None
  {
    hide Closed, Labelled, Placed;
  }

  lemma PermitTaken(w: World, t: Tid)
    requires TokenAt(w, Permit(t)) && Located(w.s, t) && CounterAgrees(t, w.s.tcb[t].status, w.pc[t])
    requires Places(w.s, t) == 1
    ensures (Enabled(w, Thread(t)) && !w.pc[t].Exiting?)
         || (w.s.tcb[t].status == Terminated && w.s.ready == [] && (w.pc[t].Exiting? || w.pc[t].Exited?))
  {
    hide Closed, Labelled, Flatten;
    assert t in w.s.finished <==> 0 < multiset(w.s.finished)[t];
  }

  // ----- Binary semaphores -----

  /** `ReleaseSemaphore` on a semaphore created with maximum count one. */
  function Release(count: nat): Option<nat> {
    if count + 1 <= 1 then Some(count + 1) else None
  }

  /** The count of the semaphore that the step posts, if it posts one. */
  function PostedCount(w: World, a: Actor): Option<nat> {
    match a
    case Thread(t) =>
      if t !in w.pc then None
      else (match w.pc[t]
        case PostingEnd(_, _) => Some(w.end)
        case Posting(target, _) => if target in w.running then Some(w.running[target]) else None
        case _ => None)
    case Main =>
      if w.main.Releasing? && w.main.target in w.running then Some(w.running[w.main.target]) else None
  }

  /** A step of the Windows version: a release that fails kills the process. */
  function AdvanceWindows(w: World, a: Actor): Option<World>
    requires Valid(w) && Enabled(w, a)
  {
    match PostedCount(w, a)
    case Some(count) => if Release(count) == None then None else Some(Advance(w, a))
    case None => Some(Advance(w, a))
  }

  /** Between the two worlds one semaphore that counted `count` got one more, and no other did. */
  ghost predicate Raises(w: World, w': World, count: nat) {
    (w.end == count && w'.end == count + 1 && w'.running == w.running)
    || (w'.end == w.end
        && exists t :: t in w.running && w.running[t] == count && w'.running == w.running[t := count + 1])
  }

  ghost predicate RaisesNone(w: World, w': World) {
    && w'.end <= w.end
    && forall t :: t in w'.running ==> w'.running[t] <= if t in w.running then w.running[t] else 0
  }

  lemma BusyRaises(w: World, t: Tid)
    requires TokenAt(w, Holder(t)) && w.pc[t] != Handler
    ensures w.pc[t].PostingEnd? ==> Raises(w, StepBusy(w, t), w.end)
    ensures w.pc[t].Posting? ==>
      w.pc[t].target in w.running && Raises(w, StepBusy(w, t), w.running[w.pc[t].target])
    ensures !w.pc[t].PostingEnd? && !w.pc[t].Posting? ==> RaisesNone(w, StepBusy(w, t))
  {
    hide Closed, Labelled, Counted, Placed, Check, Tick, MarkAsReady, WakeOne;
    BusyHolder(w, t);
  }

  lemma HandlerRaisesNone(w: World, t: Tid)
    requires TokenAt(w, Holder(t)) && w.pc[t] == Handler
    ensures RaisesNone(w, StepHandler(w, t))
  {
    hide Closed, Labelled, Counted, Placed, Rejected, Terminate, Enrol, Create;
    BusyHolder(w, t);
  }

  lemma MainRaises(w: World)
    requires Closed(w.s) && MainFormed(w) && Enabled(w, Main)
    ensures if w.main.Releasing? then Raises(w, StepMain(w), w.running[w.main.target]) else RaisesNone(w, StepMain(w))
  {
    hide Check, MarkAsReady, Create, ReclaimOrder, Closed;
  }

  /** The posts of a step, and what the Windows version makes of them: it is killed exactly when the step
      would raise a semaphore above one. */
  lemma ReleaseExactly(w: World, k: Token, a: Actor)
    requires Valid(w) && TokenAt(w, k) && Enabled(w, a)
    ensures PostedCount(w, a).Some? ==> Raises(w, Advance(w, a), PostedCount(w, a).value)
    ensures PostedCount(w, a).None? ==> RaisesNone(w, Advance(w, a))
    ensures AdvanceWindows(w, a) == None <==> PostedCount(w, a).Some? && 1 < PostedCount(w, a).value + 1
  {
    hide TokenAt, StepHandler, StepBusy, StepMain, Raises, RaisesNone;
    match a
    case Main =>
      MainIsFormed(w);
      MainRaises(w);
    case Thread(t) =>
      if w.pc[t].Start? || w.pc[t].Blocking? || w.pc[t].Exiting? {
        OutsideParked(w, t);
        ParkedRaisesNone(w, t);
      } else {
        BusyIsHolder(w, k, t);
        if w.pc[t] == Handler {
          HandlerRaisesNone(w, t);
        } else {
          BusyRaises(w, t);
        }
      }
  }

  lemma ParkedRaisesNone(w: World, t: Tid)
    requires Enabled(w, Thread(t)) && Parked(t, w.pc[t])
    ensures RaisesNone(w, StepParked(w, t))
  {
  }

  /** A run of the Windows version; `None` when the process is killed. */
  ghost function RunWindows(w: World, acts: seq<Actor>): Option<World>
    decreases |acts|
  {
    if acts == [] || !Valid(w) || !Enabled(w, acts[0]) then Some(w)
    else
      match AdvanceWindows(w, acts[0])
      case None => None
      case Some(w') => RunWindows(w', acts[1..])
  }

  lemma ReleaseSucceeds(w: World, k: Token, a: Actor)
    requires Valid(w) && TokenAt(w, k) && Enabled(w, a)
    ensures AdvanceWindows(w, a) == Some(Advance(w, a))
  {
    hide Closed, Labelled, Advance;
    if a.Thread? && (w.pc[a.tid].Posting? || w.pc[a.tid].PostingEnd?) {
      BusyIsHolder(w, k, a.tid);
    }
  }

  lemma {:induction false} RunNeverKilled(w: World, k: Token, acts: seq<Actor>, w': World)
    requires TokenAt(w, k) && Reaches(w, acts, w')
    ensures RunWindows(w, acts) == Some(w')
    decreases |acts|
  {
    hide TokenAt, Advance, AdvanceWindows, NextToken;
    if acts != [] {
      ReleaseSucceeds(w, k, acts[0]);
      AdvanceMovesToken(w, k, acts[0]);
      RunNeverKilled(Advance(w, acts[0]), NextToken(w, k, acts[0]), acts[1..], w');
    }
  }

  /** Semaphores that count to one suffice: every interleaving of the Linux version is one of the
      Windows version, step for step, and no release fails in it. */
  lemma BinarySemaphoresSuffice(quantum: int, io: nat, priority: nat, body: Script, acts: seq<Actor>, w: World)
    requires priority <= MAX_PRIORITY && Reaches(Initial(quantum, io, priority, body), acts, w)
    ensures RunWindows(Initial(quantum, io, priority, body), acts) == Some(w)
  {
    hide TokenAt, Reaches, RunWindows;
    InitialToken(quantum, io, priority, body);
    RunNeverKilled(Initial(quantum, io, priority, body), ByMain, acts, w);
  }
}
