/** The single token: in every reachable world exactly one of the main thread, a thread, or a
    semaphore has the right to touch the scheduler. Nothing is asked of the handlers for this. */
module MutualExclusion {
  import opened StableOrder
  import opened Scheduling
  import opened SequentialMachine
  import opened Interleaving
  import opened Conservation

  /** Where the token is after a step. */
  ghost function NextToken(w: World, k: Token, a: Actor): Token
    requires Valid(w) && Enabled(w, a)
  {
    match a
    case Main => if w.main.Releasing? then Permit(w.main.target) else k
    case Thread(t) =>
      if w.pc[t].Start? || w.pc[t].Blocking? then Holder(t)
      else if w.pc[t].Posting? then Permit(w.pc[t].target)
      else k
  }

  /** No thread is labelled terminated by the change. */
  ghost predicate RetiresNone(s: Sched, s': Sched) {
    s.tcb.Keys <= s'.tcb.Keys
    && forall t :: t in s'.tcb && s'.tcb[t].status == Terminated ==> t in s.tcb && s.tcb[t].status == Terminated
  }

  lemma CheckRetiresNone(s: Sched)
    requires Checkable(s)
    ensures RetiresNone(s, Check(s).next)
    ensures Check(s).stop ==> Check(s).next == s && s.ready == [] && s.tcb[s.current.value].status == Terminated
    ensures Check(s).switched ==> Check(s).next.tcb[Check(s).next.current.value].status == Running
    ensures !Check(s).switched ==> Check(s).next.current == s.current
    ensures !Check(s).switched && !Check(s).stop ==>
      Check(s).next.tcb[s.current.value].status == s.tcb[s.current.value].status != Terminated
  {
    hide Push, Slot;
  }

  lemma BusyHolder(w: World, t: Tid)
    requires TokenAt(w, Holder(t))
    ensures t in w.pc && t in w.s.tcb && Busy(w.s, t, w.pc[t])
  {
    hide Closed, Labelled, Counted;
  }

  /** A step in which the holder keeps the token and touches no semaphore. */
  lemma HolderMoves(w: World, w': World, t: Tid, pc: Pc)
    requires TokenAt(w, Holder(t)) && !Over(w, Holder(t)) && !Over(w', Holder(t))
    requires Closed(w'.s) && w'.s.tcb.Keys == w.s.tcb.Keys && w'.script.Keys == w.script.Keys
    requires w'.pc == w.pc[t := pc] && w'.running == w.running && w'.end == w.end && w'.main == w.main
    requires Busy(w'.s, t, pc) && RetiresNone(w.s, w'.s) && (Quitting(w.pc[t]) ==> Quitting(pc))
    ensures TokenAt(w', Holder(t))
  {
  }

  lemma HandlerKeepsToken(w: World, t: Tid)
    requires TokenAt(w, Holder(t)) && w.pc[t] == Handler
    ensures TokenAt(StepHandler(w, t), Holder(t))
  {
    hide Closed, Labelled, Counted, Issue, Terminate, Rejected;
    match w.script[t]
    case Done => LeaveKeepsToken(w, t);
    case Then(op, rest) =>
      if Rejected(w.s, op) {
        RefuseKeepsToken(w, t, op, rest);
      } else if op.Fork? {
        SpawnKeepsToken(w, t, op, rest);
      } else {
        IssueKeepsToken(w, t, op, rest);
      }
  }

  lemma RefuseKeepsToken(w: World, t: Tid, op: Op, rest: Script)
    requires TokenAt(w, Holder(t)) && w.pc[t] == Handler && Rejected(w.s, op) && w.script[t] == Then(op, rest)
    ensures TokenAt(StepHandler(w, t), Holder(t))
  {
    hide Closed, Labelled, Counted, Rejected;
    assert StepHandler(w, t).pc == w.pc[t := Handler];
    HolderMoves(w, StepHandler(w, t), t, Handler);
  }

  lemma IssueMoves(w: World, t: Tid, op: Op, rest: Script)
    requires TokenAt(w, Holder(t)) && w.pc[t] == Handler && !Rejected(w.s, op) && !op.Fork?
    ensures Busy(w.s, t, w.pc[t]) && Closed(Issue(w, t, op, rest).s)
    ensures RetiresNone(w.s, Issue(w, t, op, rest).s) && w.s.tcb.Keys == Issue(w, t, op, rest).s.tcb.Keys
    ensures !Over(w, Holder(t)) && !Over(Issue(w, t, op, rest), Holder(t))
  {
    hide Closed, Push, Slot, Labelled, Counted, Placed;
    BusyHolder(w, t);
  }

  lemma IssueKeepsToken(w: World, t: Tid, op: Op, rest: Script)
    requires TokenAt(w, Holder(t)) && w.pc[t] == Handler && !Rejected(w.s, op) && !op.Fork?
    ensures TokenAt(Issue(w, t, op, rest), Holder(t))
  {
    hide Closed, Push, Slot, Labelled, Counted, Placed, Enrol, Over;
    BusyHolder(w, t);
    IssueMoves(w, t, op, rest);
    HolderMoves(w, Issue(w, t, op, rest), t, Issue(w, t, op, rest).pc[t]);
  }

  lemma LeavePlaced(w: World, t: Tid, w': World)
    requires TokenAt(w, Holder(t)) && w.pc[t] == Handler && t in w.s.tcb
    requires w'.s == Terminate(w.s, t) && w'.pc == w.pc[t := Deciding(Quit)] && w'.main == w.main
    ensures w'.pc.Keys == w'.s.tcb.Keys && Placed(w', Holder(t))
  {
    hide Labelled, Counted, Closed;
  }

  lemma LeaveCounted(w: World, t: Tid, w': World)
    requires TokenAt(w, Holder(t)) && w.pc[t] == Handler && w'.pc == w.pc[t := Deciding(Quit)]
    requires w'.running == w.running && w'.end == w.end && w'.main == w.main
    ensures Counted(w', Holder(t))
  {
    hide Labelled, Placed, Closed;
  }

  lemma LeaveLabelled(w: World, t: Tid, w': World)
    requires TokenAt(w, Holder(t)) && w.pc[t] == Handler && t in w.s.tcb
    requires w'.s == Terminate(w.s, t) && w'.pc == w.pc[t := Deciding(Quit)]
    ensures w'.pc.Keys == w'.s.tcb.Keys && Labelled(w')
  {
    hide Counted, Placed, Closed;
  }

  lemma LeaveKeepsToken(w: World, t: Tid)
    requires TokenAt(w, Holder(t)) && w.pc[t] == Handler
    ensures TokenAt(Goto(Note(w, [Left(t)]).(s := Terminate(w.s, t)), t, Deciding(Quit)), Holder(t))
  {
    hide Labelled, Counted, Closed, Placed;
    BusyHolder(w, t);
    var w' := Goto(Note(w, [Left(t)]).(s := Terminate(w.s, t)), t, Deciding(Quit));
    LeavePlaced(w, t, w');
    LeaveCounted(w, t, w');
    LeaveLabelled(w, t, w');
  }

  lemma SpawnKeepsToken(w: World, t: Tid, op: Op, rest: Script)
    requires TokenAt(w, Holder(t)) && w.pc[t] == Handler && op.Fork? && !Rejected(w.s, op)
    ensures TokenAt(Issue(w, t, op, rest), Holder(t))
  {
    var child := NewTid(w.s, op.priority);
    GrowthKeepsToken(w, Issue(w, t, op, rest), t, child);
  }

  /** A step in which the holder creates a thread. */
  ghost predicate Grows(w: World, w': World, t: Tid, child: Tid) {
    && child !in w.s.tcb && t in w.pc && w.pc[t] == Handler
    && w'.s.current == w.s.current && (exists b: Tcb :: b.status == Ready && w'.s.tcb == w.s.tcb[child := b])
    && w'.pc == w.pc[child := Start][t := Forking(child)] && w'.running == w.running[child := 0]
    && w'.end == w.end && w'.main == w.main
  }

  lemma GrowthKeepsToken(w: World, w': World, t: Tid, child: Tid)
    requires TokenAt(w, Holder(t)) && Grows(w, w', t, child)
    requires Closed(w'.s) && w'.script.Keys == w'.s.tcb.Keys
    ensures TokenAt(w', Holder(t))
  {
    hide Closed, Placed, Counted, Labelled;
    GrowthPlaced(w, w', t, child);
    GrowthCounted(w, w', t, child);
    GrowthLabelled(w, w', t, child);
  }

  lemma GrowthPlaced(w: World, w': World, t: Tid, child: Tid)
    requires TokenAt(w, Holder(t)) && Grows(w, w', t, child)
    ensures w'.pc.Keys == w'.s.tcb.Keys && Placed(w', Holder(t))
  {
    hide Closed, Counted, Labelled;
  }

  lemma GrowthCounted(w: World, w': World, t: Tid, child: Tid)
    requires TokenAt(w, Holder(t)) && Grows(w, w', t, child)
    ensures w'.running.Keys == w'.s.tcb.Keys && Counted(w', Holder(t))
  {
    hide Closed, Placed, Labelled;
  }

  lemma GrowthLabelled(w: World, w': World, t: Tid, child: Tid)
    requires TokenAt(w, Holder(t)) && Grows(w, w', t, child)
    ensures w'.pc.Keys == w'.s.tcb.Keys && Labelled(w')
  {
    hide Closed, Placed, Counted;
  }

  lemma BusyKeepsToken(w: World, t: Tid)
    requires TokenAt(w, Holder(t)) && w.pc[t] != Handler && !w.pc[t].Posting?
    ensures TokenAt(StepBusy(w, t), Holder(t))
  {
    hide Check, MarkAsReady, WakeOne, Tick, Closed, Labelled, Counted;
    match w.pc[t]
    case Forking(_) => ForkingKeepsToken(w, t);
    case Waking(_, _) => WakingKeepsToken(w, t);
    case Entering(_) => EnteringKeepsToken(w, t);
    case Deciding(_) => DecidingKeepsToken(w, t);
    case PostingEnd(_, _) => PostingEndKeepsToken(w, t);
  }

  lemma ForkingKeepsToken(w: World, t: Tid)
    requires TokenAt(w, Holder(t)) && w.pc[t].Forking?
    ensures TokenAt(StepBusy(w, t), Holder(t))
  {
    hide Closed, Push, Slot, Labelled, Counted;
    HolderMoves(w, StepBusy(w, t), t, StepBusy(w, t).pc[t]);
  }

  lemma WakingKeepsToken(w: World, t: Tid)
    requires TokenAt(w, Holder(t)) && w.pc[t].Waking?
    ensures TokenAt(StepBusy(w, t), Holder(t))
  {
    hide Closed, Push, Slot, Labelled, Counted;
    HolderMoves(w, StepBusy(w, t), t, StepBusy(w, t).pc[t]);
  }

  lemma EnteringKeepsToken(w: World, t: Tid)
    requires TokenAt(w, Holder(t)) && w.pc[t].Entering?
    ensures TokenAt(StepBusy(w, t), Holder(t))
  {
    hide Closed, Labelled, Counted;
    HolderMoves(w, StepBusy(w, t), t, StepBusy(w, t).pc[t]);
  }

  lemma DecidingKeepsToken(w: World, t: Tid)
    requires TokenAt(w, Holder(t)) && w.pc[t].Deciding?
    ensures TokenAt(StepBusy(w, t), Holder(t))
  {
    hide Check, Counted, Closed;
    CheckRetiresNone(w.s);
    ClosedCurrent(Check(w.s).next);
    HolderMoves(w, StepBusy(w, t), t, StepBusy(w, t).pc[t]);
  }

  lemma ClosedCurrent(s: Sched)
    requires Closed(s) && s.current.Some?
    ensures s.current.value in s.tcb
  {
  }

  lemma PostingEndKeepsToken(w: World, t: Tid)
    requires TokenAt(w, Holder(t)) && w.pc[t].PostingEnd?
    ensures TokenAt(StepBusy(w, t), Holder(t))
  {
    hide Closed, Counted;
    PostingEndCounted(w, t);
  }

  lemma PostingEndCounted(w: World, t: Tid)
    requires TokenAt(w, Holder(t)) && w.pc[t].PostingEnd?
    ensures Counted(StepBusy(w, t), Holder(t))
  {
    hide Closed, Labelled;
  }

  /** A post hands the token over to the semaphore of the current thread. */
  lemma PostMovesToken(w: World, t: Tid)
    requires TokenAt(w, Holder(t)) && w.pc[t].Posting?
    ensures TokenAt(StepBusy(w, t), Permit(w.pc[t].target))
  {
    hide Closed, Counted;
    PostCounted(w, t);
  }

  lemma PostCounted(w: World, t: Tid)
    requires TokenAt(w, Holder(t)) && w.pc[t].Posting?
    ensures Counted(StepBusy(w, t), Permit(w.pc[t].target))
  {
    hide Closed;
  }

  /** A thread that passes its `sem_wait` becomes the holder. Only the current thread can. */
  lemma WakeTakesToken(w: World, k: Token, t: Tid)
    requires TokenAt(w, k) && Enabled(w, Thread(t)) && (w.pc[t].Start? || w.pc[t].Blocking?)
    ensures k == Permit(t) && TokenAt(StepParked(w, t), Holder(t))
  {
    hide Closed, Counted, Placed, Labelled;
    WakerHasPermit(w, k, t);
    WakePlaced(w, t);
    WakeCounted(w, t);
    WakeLabelled(w, t);
  }

  lemma WakerHasPermit(w: World, k: Token, t: Tid)
    requires TokenAt(w, k) && Enabled(w, Thread(t)) && (w.pc[t].Start? || w.pc[t].Blocking?)
    ensures k == Permit(t) && (w.pc[t].Blocking? ==> w.pc[t].own == t)
  {
    hide Closed, Labelled;
    assert Parked(t, w.pc[t]);
  }

  lemma WakePlaced(w: World, t: Tid)
    requires Enabled(w, Thread(t)) && Parked(t, w.pc[t]) && (w.pc[t].Start? || w.pc[t].Blocking?)
    requires TokenAt(w, Permit(t))
    ensures Placed(StepParked(w, t), Holder(t))
  {
    hide Closed, Counted, Labelled, Over, MainBusy;
  }

  lemma WakeCounted(w: World, t: Tid)
    requires Enabled(w, Thread(t)) && Parked(t, w.pc[t]) && (w.pc[t].Start? || w.pc[t].Blocking?)
    requires TokenAt(w, Permit(t))
    ensures Counted(StepParked(w, t), Holder(t))
  {
    hide Closed, Labelled;
  }

  lemma WakeLabelled(w: World, t: Tid)
    requires Enabled(w, Thread(t)) && Parked(t, w.pc[t]) && (w.pc[t].Start? || w.pc[t].Blocking?)
    requires TokenAt(w, Permit(t))
    ensures Labelled(StepParked(w, t))
  {
    hide Closed, Counted;
  }

  lemma ExitKeepsToken(w: World, k: Token, t: Tid)
    requires Enabled(w, Thread(t)) && w.pc[t].Exiting? && TokenAt(w, k)
    ensures TokenAt(StepParked(w, t), k)
  {
    hide Closed, Placed, Counted;
    ExitPlaced(w, k, t);
    ExitCounted(w, k, t);
  }

  lemma ExitPlaced(w: World, k: Token, t: Tid)
    requires Enabled(w, Thread(t)) && w.pc[t].Exiting? && TokenAt(w, k)
    ensures Placed(StepParked(w, t), k)
  {
    hide Closed, Counted, Labelled;
  }

  lemma ExitCounted(w: World, k: Token, t: Tid)
    requires Enabled(w, Thread(t)) && w.pc[t].Exiting? && TokenAt(w, k)
    ensures Counted(StepParked(w, t), k)
  {
    hide Closed, Placed, Labelled, Over;
    ExitKeepsOver(w, k, t);
  }

  lemma ExitKeepsOver(w: World, k: Token, t: Tid)
    requires t in w.pc && w.pc[t].Exiting?
    ensures Over(Goto(w, t, Exited), k) == Over(w, k)
  {
  }

  lemma ReclaimOrderExists(s: Sched)
    requires Closed(s)
    ensures forall t :: t in ReclaimOrder(s) ==> t in s.tcb
  {
    forall t | t in Flatten(s.waiting) ensures t in s.tcb {
      var d := FromFlatten(s.waiting, t);
    }
  }

  lemma MainForkKeepsToken(w: World)
    requires TokenAt(w, ByMain) && w.main.AtFork?
    ensures TokenAt(StepMain(w), ByMain)
  {
  }

  lemma MainMarksKeepsToken(w: World)
    requires TokenAt(w, ByMain) && w.main.Marking?
    ensures TokenAt(StepMain(w), ByMain)
  {
    hide Slot;
    PushContents(w.s.ready, w.main.child);
  }

  lemma MainChecksKeepsToken(w: World)
    requires TokenAt(w, ByMain) && w.main.Checking?
    ensures TokenAt(StepMain(w), ByMain)
  {
    hide Check, Closed, Counted;
    CheckRetiresNone(w.s);
    MainChecksPlaced(w);
    MainChecksCounted(w);
  }

  lemma MainChecksPlaced(w: World)
    requires TokenAt(w, ByMain) && w.main.Checking?
    ensures Placed(StepMain(w), ByMain)
  {
    hide Check, Counted, Labelled;
    CheckRetiresNone(w.s);
  }

  lemma MainChecksCounted(w: World)
    requires TokenAt(w, ByMain) && w.main.Checking?
    ensures Counted(StepMain(w), ByMain)
  {
    hide Check, Closed, Labelled;
  }

  lemma MainPostMovesToken(w: World)
    requires TokenAt(w, ByMain) && w.main.Releasing?
    ensures TokenAt(StepMain(w), Permit(w.main.target))
  {
  }

  lemma SameOver(w: World, w': World, k: Token)
    requires w'.s == w.s && w'.pc == w.pc
    ensures Over(w', k) == Over(w, k)
  {
  }

  /** The main thread reads `no_threads` without the token, and cannot read a zero. */
  lemma MainReadsCount(w: World, k: Token)
    requires Closed(w.s) && MainFormed(w) && Enabled(w, Main) && w.main.Ending? && TokenAt(w, k)
    ensures 1 <= w.s.count && StepMain(w).main.AwaitingEnd? && TokenAt(StepMain(w), k)
  {
    hide Over, Busy, Parked, ReclaimOrder, Labelled;
    assert k.tid.serial < w.s.count;
    SameOver(w, StepMain(w), k);
    assert Labelled(w) ==> Labelled(StepMain(w)) by { SameLabels(w, StepMain(w)); }
  }

  lemma SameLabels(w: World, w': World)
    requires w.pc.Keys == w.s.tcb.Keys && w'.s == w.s && w'.pc == w.pc
    ensures Labelled(w) == Labelled(w')
  {
  }

  lemma MainEndsKeepsToken(w: World, k: Token)
    requires TokenAt(w, k) && Enabled(w, Main) && w.main.AwaitingEnd?
    ensures TokenAt(StepMain(w), k)
  {
    hide Closed, Over, Busy, Parked, ReclaimOrder;
    ReclaimOrderExists(w.s);
    SameOver(w, StepMain(w), k);
  }

  lemma MainReclaimsKeepsToken(w: World, k: Token)
    requires TokenAt(w, k) && Enabled(w, Main) && w.main.Reclaiming?
    ensures TokenAt(StepMain(w), k)
  {
    hide Closed, Over, Busy, Parked;
    SameOver(w, StepMain(w), k);
  }

  lemma MainKeepsToken(w: World, k: Token)
    requires Valid(w) && TokenAt(w, k) && Enabled(w, Main) && MainFormed(w)
    ensures TokenAt(StepMain(w), NextToken(w, k, Main))
  {
    hide StepMain, Closed, Labelled, Counted;
    match w.main
    case AtFork(_, _) => MainForkKeepsToken(w);
    case Marking(_) => MainMarksKeepsToken(w);
    case Checking => MainChecksKeepsToken(w);
    case Releasing(_) => MainPostMovesToken(w);
    case Ending => MainReadsCount(w, k);
    case AwaitingEnd => MainEndsKeepsToken(w, k);
    case Reclaiming(_, _) => MainReclaimsKeepsToken(w, k);
  }

  /** Every step of every actor moves the one token as `NextToken` says. */
  lemma AdvanceMovesToken(w: World, k: Token, a: Actor)
    requires Valid(w) && TokenAt(w, k) && Enabled(w, a)
    ensures TokenAt(Advance(w, a), NextToken(w, k, a))
  {
    hide TokenAt, StepMain, StepHandler, StepBusy, StepParked;
    match a
    case Main =>
      MainIsFormed(w);
      MainKeepsToken(w, k);
    case Thread(t) =>
      if w.pc[t].Start? || w.pc[t].Blocking? {
        WakeTakesToken(w, k, t);
      } else if w.pc[t].Exiting? {
        ExitKeepsToken(w, k, t);
      } else {
        BusyIsHolder(w, k, t);
        if w.pc[t] == Handler {
          HandlerKeepsToken(w, t);
        } else if w.pc[t].Posting? {
          PostMovesToken(w, t);
        } else {
          BusyKeepsToken(w, t);
        }
      }
  }

  lemma BusyIsHolder(w: World, k: Token, t: Tid)
    requires TokenAt(w, k) && t in w.pc && !Parked(t, w.pc[t])
    ensures k == Holder(t)
  {
  }

  lemma TokenIsUnique(w: World, k: Token, k': Token)
    requires TokenAt(w, k) && TokenAt(w, k')
    ensures k == k'
  {
    hide Closed, Labelled, Over;
    match k
    case ByMain =>
    case Holder(t) => assert !Parked(t, w.pc[t]);
    case Permit(t) => assert w.running[t] == 1;
  }

  lemma InitialToken(quantum: int, io: nat, priority: nat, body: Script)
    requires priority <= MAX_PRIORITY
    ensures TokenAt(Initial(quantum, io, priority, body), ByMain)
  {
  }

  // ----- Runs -----

  /** The actors `acts`, one after the other and none of them blocked, lead from `w` to `w'`. */
  ghost predicate Reaches(w: World, acts: seq<Actor>, w': World)
    decreases |acts|
  {
    if acts == [] then w' == w
    else Valid(w) && Enabled(w, acts[0]) && Reaches(Advance(w, acts[0]), acts[1..], w')
  }

  lemma {:induction false} RunToken(w: World, k: Token, acts: seq<Actor>, w': World) returns (k': Token)
    requires TokenAt(w, k) && Reaches(w, acts, w')
    ensures TokenAt(w', k')
    decreases |acts|
  {
    hide TokenAt, Advance;
    if acts == [] {
      k' := k;
    } else {
      AdvanceMovesToken(w, k, acts[0]);
      k' := RunToken(Advance(w, acts[0]), NextToken(w, k, acts[0]), acts[1..], w');
    }
  }

  /** Every step that some actor has extends the run: validity restricts no interleaving. */
  lemma {:induction false} RunExtends(w: World, k: Token, acts: seq<Actor>, w': World, a: Actor)
    requires TokenAt(w, k) && Reaches(w, acts, w') && Enabled(w', a)
    ensures Valid(w') && Reaches(w, acts + [a], Advance(w', a))
    decreases |acts|
  {
    hide TokenAt, Advance, Enabled;
    if acts == [] {
      assert acts + [a] == [a] && [a][1..] == [];
      assert Reaches(Advance(w', a), [], Advance(w', a));
    } else {
      AdvanceMovesToken(w, k, acts[0]);
      RunExtends(Advance(w, acts[0]), NextToken(w, k, acts[0]), acts[1..], w', a);
      assert (acts + [a])[1..] == acts[1..] + [a];
    }
  }

  // ----- The one access without the token -----

  lemma IssueIgnoresMain(w: World, t: Tid, op: Op, rest: Script, main: MainPc)
    requires TokenAt(w, Holder(t)) && TokenAt(w.(main := main), Holder(t)) && w.pc[t] == Handler && !Rejected(w.s, op)
    ensures Issue(w.(main := main), t, op, rest) == Issue(w, t, op, rest).(main := main)
    ensures Issue(w, t, op, rest).main == w.main && Issue(w, t, op, rest).end == w.end
  {
    hide Closed, Labelled, Counted, Placed, Enrol, Create, Rejected;
  }

  /** A thread never touches the main thread's program counter, nor depends on it. */
  lemma HandlerIgnoresMain(w: World, t: Tid, main: MainPc)
    requires TokenAt(w, Holder(t)) && TokenAt(w.(main := main), Holder(t)) && w.pc[t] == Handler
    ensures StepHandler(w.(main := main), t) == StepHandler(w, t).(main := main)
    ensures StepHandler(w, t).main == w.main && StepHandler(w, t).end == w.end
  {
    hide Closed, Labelled, Counted, Placed, Terminate, Issue, Rejected;
    BusyHolder(w, t);
    if w.script[t].Then? && !Rejected(w.s, w.script[t].op) {
      IssueIgnoresMain(w, t, w.script[t].op, w.script[t].rest, main);
    }
  }

  lemma BusyIgnoresMain(w: World, t: Tid, main: MainPc)
    requires TokenAt(w, Holder(t)) && TokenAt(w.(main := main), Holder(t)) && w.pc[t] != Handler
    ensures StepBusy(w.(main := main), t) == StepBusy(w, t).(main := main)
    ensures StepBusy(w, t).main == w.main
    ensures StepBusy(w, t).end == w.end + if w.pc[t].PostingEnd? then 1 else 0
  {
    hide Closed, Labelled, Counted, Placed, Check, Tick, MarkAsReady, WakeOne;
    BusyHolder(w, t);
  }

  /** What a step of a thread does to the main thread and to `end`. */
  lemma ThreadKeepsMain(w: World, k: Token, t: Tid)
    requires Valid(w) && TokenAt(w, k) && Enabled(w, Thread(t))
    ensures Advance(w, Thread(t)).main == w.main
    ensures Advance(w, Thread(t)).end == w.end + if w.pc[t].PostingEnd? then 1 else 0
  {
    hide TokenAt, StepHandler, StepBusy;
    if w.pc[t].Start? || w.pc[t].Blocking? || w.pc[t].Exiting? {
      OutsideParked(w, t);
    } else {
      BusyIsHolder(w, k, t);
      assert w.(main := w.main) == w;
      if w.pc[t] == Handler {
        HandlerIgnoresMain(w, t, w.main);
      } else {
        BusyIgnoresMain(w, t, w.main);
      }
    }
  }

  /** What a thread does does not depend on whether the main thread is before or behind its test. */
  lemma ThreadIgnoresRead(w: World, k: Token, t: Tid)
    requires Valid(w) && TokenAt(w, k) && w.main.Ending? && Enabled(w, Thread(t))
    requires Valid(w.(main := AwaitingEnd)) && TokenAt(w.(main := AwaitingEnd), k)
    ensures Advance(w.(main := AwaitingEnd), Thread(t)) == Advance(w, Thread(t)).(main := AwaitingEnd)
    ensures Advance(w, Thread(t)).main.Ending?
  {
    hide TokenAt, StepHandler, StepBusy;
    if w.pc[t].Start? || w.pc[t].Blocking? || w.pc[t].Exiting? {
      OutsideParked(w, t);
    } else {
      BusyIsHolder(w, k, t);
      if w.pc[t] == Handler {
        HandlerIgnoresMain(w, t, AwaitingEnd);
      } else {
        BusyIgnoresMain(w, t, AwaitingEnd);
      }
    }
  }

  /** `so_end` tests `no_threads` while another thread may be incrementing it. The test never finds a
      zero, and it commutes with every step that any thread can take at that moment. */
  lemma UnguardedRead(quantum: int, io: nat, priority: nat, body: Script, acts: seq<Actor>, w: World, t: Tid)
    requires priority <= MAX_PRIORITY
    requires Reaches(Initial(quantum, io, priority, body), acts, w) && w.main.Ending?
    ensures Valid(w) && Enabled(w, Main) && 1 <= w.s.count && Advance(w, Main) == w.(main := AwaitingEnd)
    ensures Enabled(w, Thread(t)) ==>
      && Valid(Advance(w, Main)) && Enabled(Advance(w, Main), Thread(t))
      && Valid(Advance(w, Thread(t))) && Enabled(Advance(w, Thread(t)), Main)
      && 1 <= Advance(w, Thread(t)).s.count
      && Advance(Advance(w, Main), Thread(t)) == Advance(Advance(w, Thread(t)), Main)
  {
    hide TokenAt, Reaches, StepHandler, StepBusy, StepParked;
    InitialToken(quantum, io, priority, body);
    var k := RunToken(Initial(quantum, io, priority, body), ByMain, acts, w);
    MainIsFormed(w);
    MainReadsCount(w, k);
    if Enabled(w, Thread(t)) {
      ThreadIgnoresRead(w, k, t);
      AdvanceMovesToken(w, k, Thread(t));
      MainIsFormed(Advance(w, Thread(t)));
      MainReadsCount(Advance(w, Thread(t)), NextToken(w, k, Thread(t)));
    }
  }

  // ----- What the token means -----

  ghost predicate Working(pc: Pc) {
    !pc.Start? && !pc.Blocking? && !pc.Exiting? && !pc.Exited?
  }

  /** The threads inside handlers or the scheduler. */
  ghost function Workers(w: World): set<Tid> {
    set t | t in w.pc && Working(w.pc[t])
  }

  ghost predicate MainWorking(main: MainPc) {
    !main.Ending? && !main.AwaitingEnd? && !main.Reclaiming?
  }

  /** The sum of all semaphore counts. */
  ghost function Total(m: map<Tid, nat>): nat
    decreases |m|
  {
    if m == map[] then 0 else
      var t :| t in m;
      m[t] + Total(m - {t})
  }

  lemma {:induction false} TotalOf(m: map<Tid, nat>, k: Token)
    requires forall t :: t in m ==> m[t] == if k == Permit(t) then 1 else 0
    ensures Total(m) == if k.Permit? && k.tid in m then 1 else 0
    decreases |m|
  {
    if m != map[] {
      var t :| t in m && Total(m) == m[t] + Total(m - {t});
      TotalOf(m - {t}, k);
    }
  }

  lemma WorkersOf(w: World, k: Token)
    requires TokenAt(w, k)
    ensures |Workers(w)| == if k.Holder? then 1 else 0
    ensures MainWorking(w.main) <==> k.ByMain?
  {
    hide Closed, Labelled, Counted;
    if k.Holder? {
      assert Workers(w) == {k.tid};
    } else {
      assert Workers(w) == {};
    }
  }

  /** Mutual exclusion over all interleavings. In every world that any interleaving reaches, the
      threads inside handlers or the scheduler, the main thread's share in them, and the counts of
      all `running` semaphores sum up to one; a thread that has the processor or a permit for it is
      the scheduler's current thread; and no semaphore ever counts more than one. */
  lemma SingleToken(quantum: int, io: nat, priority: nat, body: Script, acts: seq<Actor>, w: World)
    requires priority <= MAX_PRIORITY
    requires Reaches(Initial(quantum, io, priority, body), acts, w)
    ensures |Workers(w)| + (if MainWorking(w.main) then 1 else 0) + Total(w.running) == 1
    ensures forall t :: t in w.pc && w.pc[t] == Handler ==> w.s.current == Some(t)
    ensures forall t :: t in w.running && 0 < w.running[t] ==> w.s.current == Some(t)
    ensures forall t :: t in w.running ==> w.running[t] <= 1
    ensures w.end <= 1
  {
    var w0 := Initial(quantum, io, priority, body);
    InitialToken(quantum, io, priority, body);
    var k := RunToken(w0, ByMain, acts, w);
    TokenMeans(w, k);
  }

  lemma TokenIsCurrent(w: World, k: Token)
    requires TokenAt(w, k)
    ensures forall t :: t in w.pc && w.pc[t] == Handler ==> w.s.current == Some(t)
    ensures k.Permit? ==> k.tid in w.pc && w.s.current == Some(k.tid)
  {
    hide Closed, Labelled, Counted;
  }

  lemma TokenMeans(w: World, k: Token)
    requires TokenAt(w, k)
    ensures |Workers(w)| + (if MainWorking(w.main) then 1 else 0) + Total(w.running) == 1
    ensures forall t :: t in w.pc && w.pc[t] == Handler ==> w.s.current == Some(t)
    ensures forall t :: t in w.running && 0 < w.running[t] ==> w.s.current == Some(t)
    ensures forall t :: t in w.running ==> w.running[t] <= 1
    ensures w.end <= 1
  {
    hide Closed, Labelled, Over, Placed;
    TotalOf(w.running, k);
    WorkersOf(w, k);
    TokenIsCurrent(w, k);
  }

  /** Two actors that both have a step into the scheduler or a handler are the same actor. */
  lemma OneWorker(w: World, t: Tid, u: Tid)
    requires Valid(w) && t in w.pc && u in w.pc && Working(w.pc[t]) && Working(w.pc[u])
    ensures t == u
  {
    var k :| TokenAt(w, k);
    BusyIsHolder(w, k, t);
    BusyIsHolder(w, k, u);
  }
}
