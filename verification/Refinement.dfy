/** Every interleaving runs the sequential schedule: the world, with the pending decision of the
    token's holder completed, is a state of the sequential machine, and each step of an actor leaves
    that state as it is or is one step of the machine. */
module Refinement {
  import opened StableOrder
  import opened Scheduling
  import opened SequentialMachine
  import opened MachineSafety
  import opened Interleaving
  import opened MutualExclusion

  /** What a thread is doing, seen from the schedule. */
  ghost function FrameOf(s: Sched, pc: Pc): Frame {
    match pc
    case Start => Fresh
    case Handler => Live
    case Forking(child) => Pending(Child(child))
    case Waking(io, cnt) => Pending(Code(cnt + if io < |s.waiting| then |s.waiting[io]| else 0))
    case Entering(ret) => Pending(ret)
    case Deciding(next) => NextFrame(next)
    case PostingEnd(_, next) => NextFrame(next)
    case Posting(_, next) => NextFrame(next)
    case Blocking(_, ret) => Pending(ret)
    case Exiting => Gone
    case Exited => Gone
  }

  ghost function NextFrame(next: Next): Frame {
    if next.Park? then Pending(next.ret) else Gone
  }

  ghost function Frames(s: Sched, pc: map<Tid, Pc>): map<Tid, Frame> {
    map t | t in pc :: FrameOf(s, pc[t])
  }

  /** The state in which the pending `scheduler_check` will run, if one is pending. */
  ghost function DecisionAhead(w: World, k: Token): (u: Option<Sched>)
    requires TokenAt(w, k)
    ensures u.Some? ==> Checkable(u.value)
  {
    match k
    case Permit(_) => None
    case Holder(t) =>
      (match w.pc[t]
       case Forking(child) => Some(Tick(MarkAsReady(w.s, child)))
       case Waking(io, _) => Some(Tick(WakeAll(w.s, io)))
       case Entering(_) => Some(Tick(w.s))
       case Deciding(_) => Some(w.s)
       case _ => None)
    case ByMain =>
      match w.main
      case AtFork(priority, _) => MarkedCheckable(Create(w.s, priority), NewTid(w.s, priority));
        Some(MarkAsReady(Create(w.s, priority), NewTid(w.s, priority)))
      case Marking(child) => MarkedCheckable(w.s, child); Some(MarkAsReady(w.s, child))
      case Checking => Some(w.s)
      case _ => None
  }

  /** No call is between its first step and its decision: in particular, while handler code runs. */
  ghost predicate Settled(w: World) {
    !w.main.AtFork? && !w.main.Marking? && !w.main.Checking?
    && forall t :: t in w.pc ==>
      !w.pc[t].Forking? && !w.pc[t].Waking? && !w.pc[t].Entering? && !w.pc[t].Deciding?
  }

  lemma SettledMeans(w: World, k: Token)
    requires TokenAt(w, k)
    ensures Settled(w) <==> DecisionAhead(w, k) == None
  {
    hide Closed, Labelled, Counted, Tick, MarkAsReady, WakeAll;
  }

  lemma MarkedCheckable(s: Sched, t: Tid)
    requires Closed(s) && t in s.tcb
    ensures Checkable(MarkAsReady(s, t))
  {
    PushContents(s.ready, t);
  }

  /** A machine from the parts of a world, with the decision that is ahead taken. */
  ghost function Assemble(s: Sched, script: map<Tid, Script>, frame: map<Tid, Frame>, log: seq<Event>,
                          u: Option<Sched>): Machine
    requires u.Some? ==> Checkable(u.value)
  {
    match u
    case None => Machine(s, script, frame, log)
    case Some(u) => Machine(Check(u).next, script, frame, log + Announce(Check(u)))
  }

  ghost function Decided(w: World, k: Token): Machine
    requires TokenAt(w, k)
  {
    if w.main.AtFork? then
      var child := NewTid(w.s, w.main.priority);
      Assemble(w.s, w.script[child := w.main.body], Frames(w.s, w.pc)[child := Fresh], w.log, DecisionAhead(w, k))
    else Assemble(w.s, w.script, Frames(w.s, w.pc), w.log, DecisionAhead(w, k))
  }

  /** With no decision ahead some thread is current. */
  lemma NothingAhead(w: World, k: Token)
    requires TokenAt(w, k) && DecisionAhead(w, k) == None
    ensures !w.main.AtFork? && w.s.current.Some?
  {
    hide Closed, Labelled, Counted, Parked;
  }

  lemma AheadKeepsThreads(w: World, k: Token)
    requires TokenAt(w, k) && DecisionAhead(w, k).Some?
    ensures DecisionAhead(w, k).value.tcb.Keys
         == w.s.tcb.Keys + if w.main.AtFork? then {NewTid(w.s, w.main.priority)} else {}
  {
    hide Closed, Labelled, Counted, Tick, MarkAsReady, WakeAll, Create;
  }

  lemma DecidedWellFormed(w: World, k: Token)
    requires TokenAt(w, k)
    ensures WellFormed(Decided(w, k))
  {
    hide Labelled, Counted, Placed, DecisionAhead, Check;
    if DecisionAhead(w, k) == None {
      NothingAhead(w, k);
    } else {
      AheadKeepsThreads(w, k);
    }
  }

  /** The state of the sequential machine that the world stands for. */
  ghost function Complete(w: World, k: Token): (m: Machine)
    requires TokenAt(w, k)
    ensures WellFormed(m)
  {
    DecidedWellFormed(w, k);
    Decided(w, k)
  }

  lemma CompleteAfterFork(w: World, k: Token)
    requires TokenAt(w, k) && !w.main.AtFork?
    ensures Complete(w, k) == Assemble(w.s, w.script, Frames(w.s, w.pc), w.log, DecisionAhead(w, k))
  {
    hide Closed, Placed, Counted, Labelled, DecisionAhead, Assemble, Frames;
  }

  lemma CompleteIdle(w: World, k: Token)
    requires TokenAt(w, k) && DecisionAhead(w, k) == None
    ensures Complete(w, k) == Machine(w.s, w.script, Frames(w.s, w.pc), w.log)
  {
    hide TokenAt, Complete, DecisionAhead, Frames;
    NothingAhead(w, k);
    CompleteAfterFork(w, k);
  }

  lemma HolderIsAfterFork(w: World, k: Token)
    requires TokenAt(w, k) && !k.ByMain?
    ensures !w.main.AtFork?
  {
    hide Closed, Counted, Labelled;
  }

  lemma FramesUpdate(s: Sched, pc: map<Tid, Pc>, t: Tid, p: Pc)
    ensures Frames(s, pc[t := p]) == Frames(s, pc)[t := FrameOf(s, p)]
  {
  }

  /** While the holder moves, the frames of all the others stay. */
  lemma FramesMove(w: World, t: Tid, s': Sched, pc: Pc)
    requires TokenAt(w, Holder(t))
    ensures Frames(s', w.pc[t := pc]) == Frames(w.s, w.pc)[t := FrameOf(s', pc)]
  {
    hide TokenAt, Frames, FrameOf;
    OthersFrames(w, t, s');
    FramesUpdate(s', w.pc, t, pc);
  }

  // ----- Steps of the machine -----

  /** A thread that gets past its semaphore is the machine's resumption of the current thread. */
  lemma WakeRefines(w: World, t: Tid, w': World)
    requires TokenAt(w, Permit(t)) && Enabled(w, Thread(t)) && Parked(t, w.pc[t]) && !w.pc[t].Exiting?
    requires w' == StepParked(w, t) && TokenAt(w', Holder(t))
    ensures Complete(w', Holder(t)) == Step(Complete(w, Permit(t)))
  {
    hide TokenAt, Check, Complete, Frames, Call, Leave, Refuse;
    PermitIsCurrent(w, t);
    WakeSides(w, t, w');
    FramesUpdate(w.s, w.pc, t, Handler);
    FramesAt(w.s, w.pc, t);
  }

  lemma WakeSides(w: World, t: Tid, w': World)
    requires TokenAt(w, Permit(t)) && Enabled(w, Thread(t)) && Parked(t, w.pc[t]) && !w.pc[t].Exiting?
    requires w' == StepParked(w, t) && TokenAt(w', Holder(t))
    ensures Complete(w, Permit(t)) == Machine(w.s, w.script, Frames(w.s, w.pc), w.log)
    ensures Complete(w', Holder(t)) == Machine(w.s, w.script, Frames(w.s, w'.pc), w'.log)
  {
    hide TokenAt, Complete, Frames;
    PermitIsCurrent(w, t);
    CompleteIdle(w, Permit(t));
    CompleteIdle(w', Holder(t));
  }

  lemma PermitIsCurrent(w: World, t: Tid)
    requires TokenAt(w, Permit(t))
    ensures w.s.current == Some(t) && t in w.pc
  {
  }

  lemma FramesAt(s: Sched, pc: map<Tid, Pc>, t: Tid)
    requires t in pc
    ensures Frames(s, pc).Keys == pc.Keys && Frames(s, pc)[t] == FrameOf(s, pc[t])
  {
  }

  lemma RefuseRefines(w: World, t: Tid, w': World)
    requires TokenAt(w, Holder(t)) && w.pc[t] == Handler && w.script[t].Then? && Rejected(w.s, w.script[t].op)
    requires w' == StepHandler(w, t) && TokenAt(w', Holder(t))
    ensures Complete(w', Holder(t)) == Step(Complete(w, Holder(t)))
  {
    hide Closed, Labelled, Counted, Check, Over, Tick, MarkAsReady, WakeAll;
  }

  lemma LeaveRefines(w: World, t: Tid, w': World)
    requires TokenAt(w, Holder(t)) && w.pc[t] == Handler && w.script[t].Done?
    requires w' == StepHandler(w, t) && TokenAt(w', Holder(t))
    ensures Complete(w', Holder(t)) == Step(Complete(w, Holder(t)))
  {
    hide Closed, Labelled, Counted, Placed, Check, Complete, Frames, Call, Refuse, Resume, Rejected;
    BusyHolder(w, t);
    HandlerIsCurrent(w, t);
    HolderIsAfterFork(w, Holder(t));
    CompleteAfterFork(w, Holder(t));
    CompleteAfterFork(w', Holder(t));
    FramesAt(w.s, w.pc, t);
    FramesMove(w, t, w'.s, Deciding(Quit));
  }

  /** The first step of an accepted call is the whole call of the machine: the rest of it, up to the
      decision, is already determined. */
  lemma IssueRefines(w: World, t: Tid, w': World)
    requires TokenAt(w, Holder(t)) && w.pc[t] == Handler && w.script[t].Then? && !Rejected(w.s, w.script[t].op)
    requires w' == StepHandler(w, t) && TokenAt(w', Holder(t))
    ensures Complete(w', Holder(t)) == Step(Complete(w, Holder(t)))
  {
    hide Closed, Labelled, Counted, Check, Complete, Frames, Call, Issue, Parked;
    var op, rest := w.script[t].op, w.script[t].rest;
    HolderIsAfterFork(w, Holder(t));
    CompleteAfterFork(w, Holder(t));
    FramesAt(w.s, w.pc, t);
    HandlerIsCurrent(w, t);
    if op.Fork? {
      ForkRefines(w, t, op, rest, w');
    } else {
      CallRefines(w, t, op, rest, w');
    }
  }

  lemma HandlerIsCurrent(w: World, t: Tid)
    requires TokenAt(w, Holder(t)) && w.pc[t] == Handler
    ensures w.s.current == Some(t) && DecisionAhead(w, Holder(t)) == None
  {
    hide Closed, Labelled, Counted;
  }

  lemma CallRefines(w: World, t: Tid, op: Op, rest: Script, w': World)
    requires TokenAt(w, Holder(t)) && w.pc[t] == Handler && !Rejected(w.s, op) && !op.Fork?
    requires w' == Issue(w, t, op, rest) && TokenAt(w', Holder(t))
    ensures Complete(w', Holder(t)) == Call(Complete(w, Holder(t)), op, rest)
  {
    hide Closed, Labelled, Counted, Check, Tick, Prologue, Complete, Frames, DecisionAhead;
    HandlerIsCurrent(w, t);
    IssueDecision(w, t, op, rest, w');
    HolderIsAfterFork(w, Holder(t));
    CompleteAfterFork(w, Holder(t));
    CompleteAfterFork(w', Holder(t));
    FramesMove(w, t, w'.s, w'.pc[t]);
  }

  lemma IssueDecision(w: World, t: Tid, op: Op, rest: Script, w': World)
    requires TokenAt(w, Holder(t)) && w.pc[t] == Handler && !Rejected(w.s, op) && !op.Fork?
    requires w' == Issue(w, t, op, rest) && TokenAt(w', Holder(t))
    ensures DecisionAhead(w', Holder(t)) == Some(Tick(Prologue(w.s, op)))
    ensures FrameOf(w'.s, w'.pc[t]) == Pending(Answer(w.s, op))
  {
    hide Closed, Labelled, Counted, Placed, Tick, WakeAll, Enrol;
    BusyHolder(w, t);
  }

  lemma ForkRefines(w: World, t: Tid, op: Op, rest: Script, w': World)
    requires TokenAt(w, Holder(t)) && w.pc[t] == Handler && !Rejected(w.s, op) && op.Fork?
    requires w' == Issue(w, t, op, rest) && TokenAt(w', Holder(t))
    ensures Complete(w', Holder(t)) == Call(Complete(w, Holder(t)), op, rest)
  {
    hide Closed, Labelled, Counted, Check, Tick, MarkAsReady, Complete, Frames;
    var child := NewTid(w.s, op.priority);
    HolderIsAfterFork(w, Holder(t));
    CompleteAfterFork(w, Holder(t));
    CompleteAfterFork(w', Holder(t));
    ForkFrames(w, t, w'.s, child);
    assert w.script[t := rest][child := op.body] == w'.script;
  }

  lemma ForkFrames(w: World, t: Tid, s': Sched, child: Tid)
    requires TokenAt(w, Holder(t)) && child !in w.pc
    ensures Frames(s', w.pc[child := Start][t := Forking(child)])
         == Frames(w.s, w.pc)[t := Pending(Child(child))][child := Fresh]
  {
    hide TokenAt, Frames;
    OthersFrames(w, t, s');
    FramesUpdate(s', w.pc, child, Start);
    FramesUpdate(s', w.pc[child := Start], t, Forking(child));
    UpdatesCommute(Frames(s', w.pc), Frames(w.s, w.pc), t, Pending(Child(child)), child, Fresh);
  }

  lemma OthersFrames(w: World, t: Tid, s': Sched)
    requires TokenAt(w, Holder(t))
    ensures t in w.pc && Frames(s', w.pc).Keys == Frames(w.s, w.pc).Keys == w.pc.Keys
    ensures forall u :: u in w.pc && u != t ==> Frames(s', w.pc)[u] == Frames(w.s, w.pc)[u]
  {
    hide Closed, Labelled, Counted;
    assert forall u :: u in w.pc && u != t ==> Parked(u, w.pc[u]);
  }

  lemma UpdatesCommute(f: map<Tid, Frame>, g: map<Tid, Frame>, t: Tid, x: Frame, u: Tid, y: Frame)
    requires t in f && u !in f && f.Keys == g.Keys && forall v :: v in f && v != t ==> f[v] == g[v]
    ensures f[u := y][t := x] == g[t := x][u := y]
  {
  }

  // ----- Steps the machine does not see -----

  /** A step of the holder towards a decision that stays the same. */
  lemma SameDecision(w: World, t: Tid, w': World)
    requires TokenAt(w, Holder(t)) && TokenAt(w', Holder(t))
    requires w'.script == w.script && w'.log == w.log && w'.pc == w.pc[t := w'.pc[t]]
    requires FrameOf(w'.s, w'.pc[t]) == FrameOf(w.s, w.pc[t])
    requires DecisionAhead(w, Holder(t)).Some? && DecisionAhead(w', Holder(t)) == DecisionAhead(w, Holder(t))
    ensures Complete(w', Holder(t)) == Complete(w, Holder(t))
  {
    hide Closed, Placed, Labelled, Counted, DecisionAhead, FrameOf, Complete, Frames;
    SameFrame(w, t, w'.s, w'.pc[t]);
    HolderIsAfterFork(w, Holder(t));
    HolderIsAfterFork(w', Holder(t));
    CompleteAfterFork(w, Holder(t));
    CompleteAfterFork(w', Holder(t));
  }

  lemma SameFrame(w: World, t: Tid, s': Sched, pc: Pc)
    requires TokenAt(w, Holder(t)) && FrameOf(s', pc) == FrameOf(w.s, w.pc[t])
    ensures Frames(s', w.pc[t := pc]) == Frames(w.s, w.pc)
  {
    hide Closed, Labelled, Counted;
    FramesMove(w, t, s', pc);
  }

  lemma ForkingStutters(w: World, t: Tid, w': World)
    requires TokenAt(w, Holder(t)) && w.pc[t].Forking?
    requires w' == StepBusy(w, t) && TokenAt(w', Holder(t))
    ensures Complete(w', Holder(t)) == Complete(w, Holder(t))
  {
    hide Closed, Labelled, Counted, Placed, Tick, MarkAsReady, Complete;
    BusyHolder(w, t);
    SameDecision(w, t, w');
  }

  lemma WakingStutters(w: World, t: Tid, w': World)
    requires TokenAt(w, Holder(t)) && w.pc[t].Waking?
    requires w' == StepBusy(w, t) && TokenAt(w', Holder(t))
    ensures Complete(w', Holder(t)) == Complete(w, Holder(t))
  {
    hide Closed, Labelled, Counted, Placed, Tick, WakeAll, WakeOne, Complete;
    BusyHolder(w, t);
    WakeAllUnfolds(w.s, w.pc[t].io);
    SameDecision(w, t, w');
  }

  lemma EnteringStutters(w: World, t: Tid, w': World)
    requires TokenAt(w, Holder(t)) && w.pc[t].Entering?
    requires w' == StepBusy(w, t) && TokenAt(w', Holder(t))
    ensures Complete(w', Holder(t)) == Complete(w, Holder(t))
  {
    hide Closed, Labelled, Counted, Placed, Tick, Complete;
    BusyHolder(w, t);
    SameDecision(w, t, w');
  }

  /** Taking the decision that was ahead. */
  lemma DecidingStutters(w: World, t: Tid, w': World)
    requires TokenAt(w, Holder(t)) && w.pc[t].Deciding?
    requires w' == StepBusy(w, t) && TokenAt(w', Holder(t))
    ensures Complete(w', Holder(t)) == Complete(w, Holder(t))
  {
    hide Closed, Labelled, Counted, Placed, Check, Complete, Frames;
    BusyHolder(w, t);
    SameFrame(w, t, w'.s, w'.pc[t]);
    HolderIsAfterFork(w, Holder(t));
    CompleteAfterFork(w, Holder(t));
    CompleteAfterFork(w', Holder(t));
  }

  /** A post, with no decision ahead before and after it. */
  lemma PostStutters(w: World, t: Tid, w': World, k': Token)
    requires TokenAt(w, Holder(t)) && (w.pc[t].PostingEnd? || w.pc[t].Posting?)
    requires w' == StepBusy(w, t) && TokenAt(w', k')
    requires k' == if w.pc[t].Posting? then Permit(w.pc[t].target) else Holder(t)
    ensures Complete(w', k') == Complete(w, Holder(t))
  {
    hide Closed, Labelled, Counted, Placed, Complete, Frames;
    BusyHolder(w, t);
    SameFrame(w, t, w'.s, w'.pc[t]);
    CompleteIdle(w, Holder(t));
    CompleteIdle(w', k');
  }

  lemma ExitStutters(w: World, k: Token, t: Tid, w': World)
    requires TokenAt(w, k) && t in w.pc && w.pc[t].Exiting?
    requires w' == StepParked(w, t) && TokenAt(w', k)
    ensures Complete(w', k) == Complete(w, k)
  {
    hide Closed, Labelled, Counted, Assemble, Frames;
    FramesUpdate(w.s, w.pc, t, Exited);
    assert Frames(w.s, w'.pc) == Frames(w.s, w.pc) by { ExitFrames(w.s, w.pc, t); }
    ExitKeepsDecision(w, k, t, w');
  }

  lemma ExitFrames(s: Sched, pc: map<Tid, Pc>, t: Tid)
    requires t in pc && pc[t].Exiting?
    ensures Frames(s, pc[t := Exited]) == Frames(s, pc)
  {
  }

  lemma ExitKeepsDecision(w: World, k: Token, t: Tid, w': World)
    requires TokenAt(w, k) && t in w.pc && w.pc[t].Exiting?
    requires w' == StepParked(w, t) && TokenAt(w', k)
    ensures DecisionAhead(w', k) == DecisionAhead(w, k)
  {
    hide Closed, Labelled, Counted, Tick, MarkAsReady, WakeAll;
  }

  lemma MainForkStutters(w: World, w': World)
    requires TokenAt(w, ByMain) && w.main.AtFork?
    requires w' == StepMain(w) && TokenAt(w', ByMain)
    ensures Complete(w', ByMain) == Complete(w, ByMain)
  {
    hide Closed, Labelled, Counted, Check, MarkAsReady;
    FramesUpdate(w'.s, w.pc, NewTid(w.s, w.main.priority), Start);
    NobodyWaking(w, w'.s);
  }

  lemma NobodyWaking(w: World, s': Sched)
    requires TokenAt(w, ByMain)
    ensures Frames(s', w.pc) == Frames(w.s, w.pc)
  {
    hide Closed, Labelled, Counted;
    assert forall u :: u in w.pc ==> Parked(u, w.pc[u]);
  }

  lemma MainDecisionStutters(w: World, w': World)
    requires TokenAt(w, ByMain) && (w.main.Marking? || w.main.Checking?)
    requires w' == StepMain(w) && TokenAt(w', ByMain)
    ensures Complete(w', ByMain) == Complete(w, ByMain)
  {
    hide Closed, Labelled, Counted, Check, MarkAsReady, Complete, Frames;
    NobodyWaking(w, w'.s);
    CompleteAfterFork(w, ByMain);
    CompleteAfterFork(w', ByMain);
  }

  lemma MainHolds(w: World, k: Token)
    requires TokenAt(w, k)
    ensures !k.ByMain? <==> w.main.Ending? || w.main.AwaitingEnd? || w.main.Reclaiming?
  {
    hide Closed, Labelled, Counted, Busy, Parked;
  }

  lemma MainChangesItself(w: World)
    requires Closed(w.s) && MainFormed(w) && Enabled(w, Main)
    requires !w.main.AtFork? && !w.main.Marking? && !w.main.Checking?
    ensures StepMain(w).s == w.s && StepMain(w).pc == w.pc && StepMain(w).script == w.script
    ensures StepMain(w).log == w.log
    ensures StepMain(w).main.Ending? || StepMain(w).main.AwaitingEnd? || StepMain(w).main.Reclaiming?
  {
  }

  lemma SameAhead(w: World, k: Token, w': World)
    requires TokenAt(w, k) && TokenAt(w', k) && !k.ByMain? && w'.s == w.s && w'.pc == w.pc
    ensures DecisionAhead(w', k) == DecisionAhead(w, k)
  {
    hide TokenAt, Tick, MarkAsReady, WakeAll;
  }

  lemma PermitAhead(w: World, k: Token)
    requires TokenAt(w, k) && k.Permit?
    ensures DecisionAhead(w, k) == None
  {
    hide TokenAt;
  }

  lemma ReleasingAhead(w: World, k: Token)
    requires TokenAt(w, k) && k.ByMain? && w.main.Releasing?
    ensures DecisionAhead(w, k) == None
  {
    hide TokenAt;
  }

  lemma MainStutters(w: World, k: Token, w': World, k': Token)
    requires TokenAt(w, k) && Enabled(w, Main) && MainFormed(w) && (k.ByMain? ==> w.main.Releasing?)
    requires w' == StepMain(w) && TokenAt(w', k') && k' == if w.main.Releasing? then Permit(w.main.target) else k
    ensures Complete(w', k') == Complete(w, k)
  {
    hide Placed, Counted, Labelled, Complete, Frames, DecisionAhead, StepMain, Closed;
    MainHolds(w, k);
    MainChangesItself(w);
    if w.main.Releasing? {
      ReleasingAhead(w, k);
      PermitAhead(w', k');
      CompleteIdle(w, k);
      CompleteIdle(w', k');
    } else {
      SameAhead(w, k, w');
      CompleteAfterFork(w, k);
      CompleteAfterFork(w', k);
    }
  }

  // ----- Runs -----

  /** The steps that the sequential machine sees: a handler's own, and getting past a semaphore. */
  ghost predicate Visible(w: World, a: Actor) {
    a.Thread? && a.tid in w.pc && (w.pc[a.tid].Start? || w.pc[a.tid].Blocking? || w.pc[a.tid].Handler?)
  }

  lemma HandlerRefines(w: World, t: Tid, w': World)
    requires TokenAt(w, Holder(t)) && w.pc[t] == Handler
    requires w' == StepHandler(w, t) && TokenAt(w', Holder(t))
    ensures Complete(w', Holder(t)) == Step(Complete(w, Holder(t)))
  {
    hide Closed, Labelled, Counted, Complete, StepHandler, Step;
    if w.script[t].Done? {
      LeaveRefines(w, t, w');
    } else if Rejected(w.s, w.script[t].op) {
      RefuseRefines(w, t, w');
    } else {
      IssueRefines(w, t, w');
    }
  }

  lemma BusyStutters(w: World, t: Tid, w': World, k': Token)
    requires TokenAt(w, Holder(t)) && w.pc[t] != Handler
    requires w' == StepBusy(w, t) && TokenAt(w', k')
    requires k' == if w.pc[t].Posting? then Permit(w.pc[t].target) else Holder(t)
    ensures Complete(w', k') == Complete(w, Holder(t))
  {
    hide Closed, Labelled, Counted, Complete, StepBusy;
    match w.pc[t]
    case Forking(_) => ForkingStutters(w, t, w');
    case Waking(_, _) => WakingStutters(w, t, w');
    case Entering(_) => EnteringStutters(w, t, w');
    case Deciding(_) => DecidingStutters(w, t, w');
    case PostingEnd(_, _) => PostStutters(w, t, w', k');
    case Posting(_, _) => PostStutters(w, t, w', k');
  }

  /** One step of any actor is one step of the sequential machine, or none. */
  lemma AdvanceRefines(w: World, k: Token, a: Actor)
    requires Valid(w) && TokenAt(w, k) && Enabled(w, a)
    ensures TokenAt(Advance(w, a), NextToken(w, k, a))
    ensures Complete(Advance(w, a), NextToken(w, k, a))
         == if Visible(w, a) then Step(Complete(w, k)) else Complete(w, k)
  {
    hide TokenAt, Complete, StepHandler, StepBusy, StepParked, StepMain, Step;
    AdvanceMovesToken(w, k, a);
    match a
    case Main =>
      MainIsFormed(w);
      MainSteps(w, k, Advance(w, a));
    case Thread(t) =>
      if w.pc[t].Start? || w.pc[t].Blocking? {
        OutsideParked(w, t);
        WakerHasPermit(w, k, t);
        WakeRefines(w, t, Advance(w, a));
      } else if w.pc[t].Exiting? {
        OutsideParked(w, t);
        ExitStutters(w, k, t, Advance(w, a));
      } else {
        BusyIsHolder(w, k, t);
        if w.pc[t] == Handler {
          HandlerRefines(w, t, Advance(w, a));
        } else {
          BusyStutters(w, t, Advance(w, a), NextToken(w, k, a));
        }
      }
  }

  lemma MainSteps(w: World, k: Token, w': World)
    requires TokenAt(w, k) && Enabled(w, Main) && MainFormed(w) && w' == StepMain(w)
    requires TokenAt(w', if w.main.Releasing? then Permit(w.main.target) else k)
    ensures Complete(w', if w.main.Releasing? then Permit(w.main.target) else k) == Complete(w, k)
  {
    hide Closed, Labelled, Counted, Complete, StepMain;
    if w.main.AtFork? {
      MainForkStutters(w, w');
    } else if w.main.Marking? || w.main.Checking? {
      MainDecisionStutters(w, w');
    } else {
      MainStutters(w, k, w', if w.main.Releasing? then Permit(w.main.target) else k);
    }
  }

  /** A run of the world stands for a run of the machine, at most as long. */
  lemma {:induction false} RunRefines(w: World, k: Token, acts: seq<Actor>, w': World) returns (k': Token, n: nat)
    requires TokenAt(w, k) && Reaches(w, acts, w')
    ensures TokenAt(w', k') && n <= |acts| && Complete(w', k') == After(Complete(w, k), n)
    decreases |acts|
  {
    hide TokenAt, Advance, Complete, Step, WellFormed, Visible, NextToken;
    if acts == [] {
      k', n := k, 0;
    } else {
      var m := Complete(w, k);
      AdvanceRefines(w, k, acts[0]);
      var i := if Visible(w, acts[0]) then 1 else 0;
      assert After(m, 0) == m && After(m, 1) == Step(After(m, 0));
      var rest: nat;
      k', rest := RunRefines(Advance(w, acts[0]), NextToken(w, k, acts[0]), acts[1..], w');
      AfterAdds(m, i, rest);
      n := i + rest;
    }
  }

  lemma InitialCompletes(quantum: int, io: nat, priority: nat, body: Script)
    requires priority <= MAX_PRIORITY
    requires TokenAt(Initial(quantum, io, priority, body), ByMain)
    ensures Complete(Initial(quantum, io, priority, body), ByMain) == Boot(quantum, io, priority, body)
  {
    hide Check, MarkAsReady, Create, Closed, Counted, Labelled, Placed;
    var w := Initial(quantum, io, priority, body);
    assert Frames(w.s, w.pc) == map[];
  }

  /** Refinement over all interleavings: whatever the operating system does, what has been called,
      dispatched and returned so far, together with the pending decision, is what the sequential
      schedule has after some number of steps. */
  lemma InterleavingsRefineSchedule(quantum: int, io: nat, priority: nat, body: Script, acts: seq<Actor>, w: World)
    returns (k: Token, n: nat)
    requires priority <= MAX_PRIORITY && Reaches(Initial(quantum, io, priority, body), acts, w)
    ensures TokenAt(w, k) && n <= |acts|
    ensures Complete(w, k) == After(Boot(quantum, io, priority, body), n)
  {
    hide TokenAt, Complete, After, Boot;
    var w0 := Initial(quantum, io, priority, body);
    InitialToken(quantum, io, priority, body);
    InitialCompletes(quantum, io, priority, body);
    k, n := RunRefines(w0, ByMain, acts, w);
  }

  /** No actor has a step. */
  ghost predicate Stuck(w: World) {
    forall a :: !Enabled(w, a)
  }

  /** Nobody can move only after the current thread has exited, its permit unused. */
  lemma StuckIsOver(w: World, k: Token)
    requires TokenAt(w, k) && Stuck(w)
    ensures k.Permit? && k.tid in w.pc && w.pc[k.tid].Exited? && w.s.current == Some(k.tid)
    ensures Complete(w, k) == Machine(w.s, w.script, Frames(w.s, w.pc), w.log) && Resting(Complete(w, k))
  {
    hide Closed, Labelled, Complete;
    assert !Enabled(w, Main);
    if !k.ByMain? {
      assert !Enabled(w, Thread(k.tid));
    }
    HolderIsAfterFork(w, k);
    CompleteAfterFork(w, k);
  }

  lemma {:induction false} RestingStays(m: Machine, n: nat, j: nat)
    requires WellFormed(m) && Resting(After(m, n))
    ensures After(m, n + j) == After(m, n)
  {
    hide WellFormed, Call, Leave, Resume, Refuse;
    if j != 0 {
      RestingStays(m, n, j - 1);
    }
  }

  lemma RestsOnce(m: Machine, n: nat, n': nat)
    requires WellFormed(m) && Resting(After(m, n)) && Resting(After(m, n'))
    ensures After(m, n) == After(m, n')
  {
    hide WellFormed, After, Resting;
    if n <= n' {
      RestingStays(m, n, n' - n);
    } else {
      RestingStays(m, n', n - n');
    }
  }

  /** Determinism: all interleavings that run until nobody can move produce the same sequence of
      calls, dispatches and return values, and leave the same scheduler. */
  lemma MaximalRunsAgree(quantum: int, io: nat, priority: nat, body: Script,
                         acts: seq<Actor>, w: World, acts': seq<Actor>, w': World)
    requires priority <= MAX_PRIORITY
    requires Reaches(Initial(quantum, io, priority, body), acts, w) && Stuck(w)
    requires Reaches(Initial(quantum, io, priority, body), acts', w') && Stuck(w')
    ensures w.log == w'.log && w.s == w'.s && w.script == w'.script
  {
    hide TokenAt, Complete, Boot, Stuck, Resting, Reaches, After, Frames, Initial, WellFormed;
    var k, n := InterleavingsRefineSchedule(quantum, io, priority, body, acts, w);
    var k', n' := InterleavingsRefineSchedule(quantum, io, priority, body, acts', w');
    StuckIsOver(w, k);
    StuckIsOver(w', k');
    RestsOnce(Boot(quantum, io, priority, body), n, n');
  }
}
