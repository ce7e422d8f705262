/** The order theorems on what can be observed of an interleaving: the dispatches in the log of its
    world. */
module DispatchOrder {
  import opened StableOrder
  import opened Scheduling
  import opened Conservation
  import opened SequentialMachine
  import opened MachineSafety
  import opened ScheduleOrder
  import opened Interleaving
  import opened MutualExclusion
  import opened Refinement
  import opened WorldSafety

  // ----- Dispatches of the schedule -----

  /** A decision switches exactly when another thread is current afterwards. */
  lemma SwitchesExactly(u: Sched)
    requires Undecided(u) && u.current.Some?
    ensures Check(u).switched <==> Check(u).next.current != u.current
  {
    hide Push, Slot, Queued, Flatten, Sorted;
    if u.ready != [] {
      assert u.ready[0] in u.ready;
      if u.tcb[u.current.value].status == Running && u.current.value.priority <= u.ready[0].priority {
        PushKeepsHead(u.ready, u.current.value);
      }
    }
  }

  /** What a step logs: one or two events of the current thread, and the dispatch if one is made. */
  lemma StepNews(m: Machine) returns (own: seq<Event>)
    requires WellFormed(m)
    ensures forall e :: e in own ==> !e.Dispatched?
    ensures Step(m).log == m.log + own + if Schedules(m) then Announce(Check(AtCheck(m))) else []
  {
    hide Check, Prologue, Terminate, Tick;
    var c := m.s.current.value;
    own :=
      match m.frame[c]
      case Gone => []
      case Fresh => [Began(c)]
      case Pending(ret) => [Returned(c, ret)]
      case Live =>
        match m.script[c]
        case Done => [Event.Left(c)]
        case Then(op, _) => [Called(c, op)] + if Rejected(m.s, op) then [Returned(c, Refusal(op))] else [];
  }

  lemma StepLog(m: Machine)
    requires WellFormed(m) && Safe(m) && !LoneWait(m)
    ensures m.log <= Step(m).log
    ensures forall x ::
      Dispatched(x) in Step(m).log[|m.log|..] <==> Step(m).s.current == Some(x) && m.s.current != Some(x)
  {
    hide Check, Step, AtCheck, Schedules, Safe, LoneWait;
    var own := StepNews(m);
    StepIsCheck(m);
    var news := own + if Schedules(m) then Announce(Check(AtCheck(m))) else [];
    assert Step(m).log == m.log + news && Step(m).log[|m.log|..] == news;
    if Schedules(m) {
      AtCheckUndecided(m);
      SwitchesExactly(AtCheck(m));
    }
  }

  lemma {:induction false} LogGrows(m: Machine, i: nat, n: nat)
    requires WellFormed(m) && Safe(m) && Disciplined(m, n) && i <= n
    ensures After(m, i).log <= After(m, n).log
  {
    hide Step, Safe, WellFormed, LoneWait;
    if i < n {
      LogGrows(m, i, n - 1);
      RunSafe(m, n - 1);
      StepLog(After(m, n - 1));
    }
  }

  /** The step at which a logged dispatch happened. */
  lemma {:induction false} DispatchStep(m: Machine, n: nat, j: nat, x: Tid) returns (i: nat)
    requires WellFormed(m) && Safe(m) && Disciplined(m, n)
    requires |m.log| <= j < |After(m, n).log| && After(m, n).log[j] == Dispatched(x)
    ensures i < n && |After(m, i).log| <= j
    ensures After(m, i).s.current != Some(x) && After(m, i + 1).s.current == Some(x)
  {
    hide Step, Safe, WellFormed, LoneWait;
    NoSteps(m);
    assert n != 0;
    LogGrows(m, n - 1, n);
    if j < |After(m, n - 1).log| {
      i := DispatchStep(m, n - 1, j, x);
    } else {
      i := n - 1;
      RunSafe(m, n - 1);
      StepLog(After(m, n - 1));
      assert After(m, n).log[|After(m, n - 1).log|..][j - |After(m, n - 1).log|] == Dispatched(x);
    }
  }

  /** A thread that gets the processor is logged as dispatched. */
  lemma {:induction false} RunIsLogged(m: Machine, n: nat, x: Tid) returns (j: nat)
    requires WellFormed(m) && Safe(m) && Disciplined(m, n) && m.s.current != Some(x) && RunsWithin(m, x, n)
    ensures |m.log| <= j < |After(m, n).log| && After(m, n).log[j] == Dispatched(x)
  {
    hide Step, Safe, WellFormed, LoneWait;
    NoSteps(m);
    assert n != 0;
    LogGrows(m, n - 1, n);
    LogGrows(m, 0, n - 1);
    if RunsWithin(m, x, n - 1) {
      j := RunIsLogged(m, n - 1, x);
    } else {
      assert After(m, n).s.current == Some(x) && After(m, n - 1).s.current != Some(x);
      RunSafe(m, n - 1);
      StepLog(After(m, n - 1));
      var news := After(m, n).log[|After(m, n - 1).log|..];
      var i :| 0 <= i < |news| && news[i] == Dispatched(x);
      j := |After(m, n - 1).log| + i;
    }
  }

  lemma FifoLog(m: Machine, a: Tid, b: Tid, n: nat, j: nat) returns (i: nat)
    requires WellFormed(m) && Safe(m) && Disciplined(m, n)
    requires Ahead(m.s.ready, a, b) && a != b && b.priority <= a.priority
    requires |m.log| <= j < |After(m, n).log| && After(m, n).log[j] == Dispatched(b)
    ensures |m.log| <= i < j && After(m, n).log[i] == Dispatched(a)
  {
    hide Step, WellFormed, LoneWait, After, Ahead, Queued;
    var step := DispatchStep(m, n, j, b);
    DisciplinedBefore(m, n, step + 1);
    FifoDispatch(m, a, b, step);
    CurrentNotReady(m.s);
    AheadMember(m.s.ready, a, b);
    DisciplinedBefore(m, n, step);
    i := RunIsLogged(m, step, a);
    LogGrows(m, step, n);
  }

  // ----- From a world to its schedule -----

  lemma DisciplinedAfter(m: Machine, n: nat, total: nat, rest: nat)
    requires WellFormed(m) && Disciplined(m, total) && n + rest <= total
    ensures Disciplined(After(m, n), rest)
  {
    hide After, LoneWait, WellFormed;
    forall i | 0 <= i < rest ensures !LoneWait(After(After(m, n), i)) {
      AfterAdds(m, n, i);
      assert !LoneWait(After(m, n + i));
    }
  }

  lemma SettledCompletes(w: World, k: Token)
    requires TokenAt(w, k) && Settled(w)
    ensures Complete(w, k).s == w.s && Complete(w, k).log == w.log
  {
    hide TokenAt, Complete, Frames, DecisionAhead;
    SettledMeans(w, k);
    CompleteAfterFork(w, k);
  }

  /** What was logged in a world is logged in its schedule. */
  lemma LogCompletes(w: World, k: Token)
    requires TokenAt(w, k)
    ensures w.log <= Complete(w, k).log
  {
    hide TokenAt, Frames, DecisionAhead, Check;
  }

  /** First in, first out, over all interleavings: when `a` is ready and `b`, of at most the same
      priority, is not ahead of it, then in whatever way the run goes on, every dispatch of `b` comes
      after a dispatch of `a`. */
  lemma FifoInEveryInterleaving(quantum: int, io: nat, priority: nat, body: Script, acts: seq<Actor>, w: World,
                                more: seq<Actor>, w': World, a: Tid, b: Tid, j: nat)
    returns (i: nat)
    requires 1 <= quantum && priority <= MAX_PRIORITY
    requires Reaches(Initial(quantum, io, priority, body), acts, w) && Settled(w) && Reaches(w, more, w')
    requires Disciplined(Boot(quantum, io, priority, body), |acts| + |more|)
    requires Ahead(w.s.ready, a, b) && a != b && b.priority <= a.priority
    requires |w.log| <= j < |w'.log| && w'.log[j] == Dispatched(b)
    ensures |w.log| <= i < j && w'.log[i] == Dispatched(a)
  {
    hide TokenAt, Complete, Boot, Reaches, After, Disciplined, Safe, WellFormed, Settled, Ahead;
    var m0 := Boot(quantum, io, priority, body);
    DisciplinedBefore(m0, |acts| + |more|, |acts|);
    var k, n0 := SafeSoFar(quantum, io, priority, body, acts, w);
    var k', n := RunRefines(w, k, more, w');
    DisciplinedAfter(m0, n0, |acts| + |more|, n);
    SettledCompletes(w, k);
    LogCompletes(w', k');
    i := FifoLog(Complete(w, k), a, b, n, j);
  }

  // ----- Scheduler calls of an interleaving -----

  ghost predicate Underway(pc: Pc) {
    pc.Forking? || pc.Waking? || pc.Entering? || pc.Deciding?
  }

  /** A call of the schedule whose decision the world has still to make. */
  ghost function Owed(w: World, k: Token): nat {
    if k.Holder? && k.tid in w.pc && Underway(w.pc[k.tid]) then 1 else 0
  }

  /** The step is a run of `scheduler_check` by a thread. */
  ghost predicate Decides(w: World, a: Actor) {
    a.Thread? && a.tid in w.pc && w.pc[a.tid].Deciding?
  }

  /** How many steps of the run are. */
  ghost function Decisions(w: World, acts: seq<Actor>): nat
    decreases |acts|
  {
    if acts == [] || !Valid(w) || !Enabled(w, acts[0]) then 0
    else (if Decides(w, acts[0]) then 1 else 0) + Decisions(Advance(w, acts[0]), acts[1..])
  }

  lemma HandlerOwes(w: World, t: Tid)
    requires TokenAt(w, Holder(t)) && w.pc[t] == Handler
    ensures Owed(StepHandler(w, t), Holder(t)) == if Schedules(Complete(w, Holder(t))) then 1 else 0
  {
    hide Closed, Labelled, Counted, Placed, Complete, Frames, DecisionAhead, Rejected, Terminate, Enrol, Create;
    BusyHolder(w, t);
    HandlerIsCurrent(w, t);
    HolderIsAfterFork(w, Holder(t));
    CompleteAfterFork(w, Holder(t));
    FramesAt(w.s, w.pc, t);
  }

  lemma BusyOwes(w: World, t: Tid)
    requires TokenAt(w, Holder(t)) && w.pc[t] != Handler && !w.pc[t].Posting?
    ensures Owed(StepBusy(w, t), Holder(t)) + (if w.pc[t].Deciding? then 1 else 0) == Owed(w, Holder(t))
  {
    hide Closed, Labelled, Counted, Placed, Check, Tick, MarkAsReady, WakeOne;
    BusyHolder(w, t);
  }

  lemma WakerOwesNothing(w: World, t: Tid)
    requires TokenAt(w, Permit(t)) && Enabled(w, Thread(t)) && (w.pc[t].Start? || w.pc[t].Blocking?)
    ensures !Schedules(Complete(w, Permit(t)))
  {
    hide Closed, Labelled, Counted, Complete, Frames, Placed;
    PermitIsCurrent(w, t);
    HolderIsAfterFork(w, Permit(t));
    CompleteAfterFork(w, Permit(t));
    FramesAt(w.s, w.pc, t);
  }

  lemma MainOwesNothing(w: World, k: Token)
    requires Valid(w) && TokenAt(w, k) && Enabled(w, Main)
    ensures Owed(Advance(w, Main), NextToken(w, k, Main)) == Owed(w, k)
  {
    hide Closed, Labelled, Counted, Check, MarkAsReady, Create, ReclaimOrder, Parked;
    MainIsFormed(w);
  }

  /** Every call of the schedule is decided once in the world: at once it is owed, and then paid. */
  lemma AdvanceOwes(w: World, k: Token, a: Actor)
    requires Valid(w) && TokenAt(w, k) && Enabled(w, a)
    ensures Owed(Advance(w, a), NextToken(w, k, a)) + (if Decides(w, a) then 1 else 0)
         == Owed(w, k) + (if Visible(w, a) && Schedules(Complete(w, k)) then 1 else 0)
  {
    hide TokenAt, Complete, StepHandler, StepBusy, Schedules;
    match a
    case Main => MainOwesNothing(w, k);
    case Thread(t) =>
      if w.pc[t].Start? || w.pc[t].Blocking? {
        OutsideParked(w, t);
        WakerHasPermit(w, k, t);
        WakerOwesNothing(w, t);
      } else if w.pc[t].Exiting? {
        OutsideParked(w, t);
      } else {
        BusyIsHolder(w, k, t);
        if w.pc[t] == Handler {
          HandlerOwes(w, t);
        } else if !w.pc[t].Posting? {
          BusyOwes(w, t);
        }
      }
  }

  lemma {:induction false} CallsAdd(m: Machine, i: nat, j: nat)
    requires WellFormed(m)
    ensures Calls(m, i + j) == Calls(m, i) + Calls(After(m, i), j)
  {
    hide After, Schedules, WellFormed;
    if j != 0 {
      CallsAdd(m, i, j - 1);
      AfterAdds(m, i, j - 1);
    }
  }

  lemma OneCall(m: Machine)
    requires WellFormed(m)
    ensures Calls(m, 1) == if Schedules(m) then 1 else 0
  {
    hide Schedules, Step;
    assert After(m, 0) == m;
    assert Calls(m, 0) == 0;
  }

  /** A run of the world and the run of its schedule make the same calls, but for one being made. */
  lemma {:induction false} RunCounts(w: World, k: Token, acts: seq<Actor>, w': World) returns (k': Token, n: nat)
    requires TokenAt(w, k) && Reaches(w, acts, w')
    ensures TokenAt(w', k') && n <= |acts| && Complete(w', k') == After(Complete(w, k), n)
    ensures Decisions(w, acts) + Owed(w', k') == Calls(Complete(w, k), n) + Owed(w, k)
    decreases |acts|
  {
    hide TokenAt, Advance, Complete, WellFormed, Visible, NextToken, Owed, Decides, Schedules, Calls, After;
    var m := Complete(w, k);
    if acts == [] {
      k', n := k, 0;
      NoSteps(m);
      NoCalls(m);
    } else {
      AdvanceRefines(w, k, acts[0]);
      AdvanceOwes(w, k, acts[0]);
      var rest: nat;
      k', rest := RunCounts(Advance(w, acts[0]), NextToken(w, k, acts[0]), acts[1..], w');
      if Visible(w, acts[0]) {
        FirstStep(m);
        OneCall(m);
        AfterAdds(m, 1, rest);
        CallsAdd(m, 1, rest);
        n := 1 + rest;
      } else {
        n := rest;
      }
    }
  }

  lemma NoCalls(m: Machine)
    requires WellFormed(m)
    ensures Calls(m, 0) == 0
  {
  }

  // ----- The round-robin bound -----

  /** While only priorities up to that of `t` are dispatched, only such threads run. */
  lemma LogBoundsCurrent(m: Machine, t: Tid, n: nat, i: nat)
    requires WellFormed(m) && Safe(m) && Disciplined(m, n) && i <= n && m.s.current.value.priority <= t.priority
    requires forall j :: |m.log| <= j < |After(m, n).log| && After(m, n).log[j].Dispatched? ==>
      After(m, n).log[j].tid.priority <= t.priority
    ensures After(m, i).s.current.value.priority <= t.priority
  {
    hide Step, After, LoneWait, Safe;
    var c := After(m, i).s.current.value;
    if m.s.current != Some(c) {
      DisciplinedBefore(m, n, i);
      var j := RunIsLogged(m, i, c);
      LogGrows(m, i, n);
      assert After(m, n).log[j] == Dispatched(c);
    }
  }

  /** A thread that has waited for as many calls as the bound allows was dispatched. */
  lemma RoundRobinLog(m: Machine, t: Tid, k: nat, n: nat) returns (j: nat)
    requires WellFormed(m) && Safe(m) && Disciplined(m, n) && Queuing(m.s, t, k)
    requires forall j :: |m.log| <= j < |After(m, n).log| && After(m, n).log[j].Dispatched? ==>
      After(m, n).log[j].tid.priority <= t.priority
    requires Distance(m.s, k) <= Calls(m, n)
    ensures |m.log| <= j < |After(m, n).log| && After(m, n).log[j] == Dispatched(t)
  {
    hide Step, After, LoneWait, Calls, Disciplined;
    CurrentNotReady(m.s);
    if !RunsWithin(m, t, n) {
      forall i | 0 <= i <= n ensures After(m, i).s.current.value.priority <= t.priority {
        LogBoundsCurrent(m, t, n, i);
      }
      var k' := RoundRobin(m, t, k, n);
    }
    j := RunIsLogged(m, n, t);
  }

  lemma SettledOwesNothing(w: World, k: Token)
    requires Settled(w)
    ensures Owed(w, k) == 0
  {
  }

  lemma RoundRobinSettled(quantum: int, io: nat, priority: nat, body: Script, acts: seq<Actor>, w: World,
                          more: seq<Actor>, w': World, t: Tid, k: nat)
    returns (j: nat)
    requires 1 <= quantum && priority <= MAX_PRIORITY
    requires Reaches(Initial(quantum, io, priority, body), acts, w) && Settled(w)
    requires Reaches(w, more, w') && Settled(w')
    requires Disciplined(Boot(quantum, io, priority, body), |acts| + |more|)
    requires Queuing(w.s, t, k) && Distance(w.s, k) <= Decisions(w, more)
    requires forall j :: |w.log| <= j < |w'.log| && w'.log[j].Dispatched? ==> w'.log[j].tid.priority <= t.priority
    ensures |w.log| <= j < |w'.log| && w'.log[j] == Dispatched(t)
  {
    hide TokenAt, Complete, Boot, Reaches, After, Disciplined, Safe, WellFormed, Settled, Queuing, Owed, Calls,
      Decisions, Distance, Initial;
    var m0 := Boot(quantum, io, priority, body);
    DisciplinedBefore(m0, |acts| + |more|, |acts|);
    var token, n0 := SafeSoFar(quantum, io, priority, body, acts, w);
    var token', n := RunCounts(w, token, more, w');
    DisciplinedAfter(m0, n0, |acts| + |more|, n);
    SettledCompletes(w, token);
    SettledCompletes(w', token');
    SettledOwesNothing(w, token);
    SettledOwesNothing(w', token');
    j := RoundRobinLog(Complete(w, token), t, k, n);
  }

  /** A run without its last step. */
  lemma {:induction false} LastStep(w: World, k: Token, acts: seq<Actor>, w': World) returns (w1: World, k1: Token)
    requires TokenAt(w, k) && Reaches(w, acts, w') && acts != []
    ensures Reaches(w, acts[..|acts| - 1], w1) && TokenAt(w1, k1) && Valid(w1)
    ensures Enabled(w1, acts[|acts| - 1]) && w' == Advance(w1, acts[|acts| - 1])
    ensures Decisions(w, acts) == Decisions(w, acts[..|acts| - 1]) + if Decides(w1, acts[|acts| - 1]) then 1 else 0
    decreases |acts|
  {
    hide TokenAt, Advance, NextToken, Decides, Enabled;
    if |acts| == 1 {
      w1, k1 := w, k;
      assert acts[..0] == [] && acts[1..] == [];
      assert Decisions(Advance(w, acts[0]), []) == 0;
    } else {
      AdvanceMovesToken(w, k, acts[0]);
      w1, k1 := LastStep(Advance(w, acts[0]), NextToken(w, k, acts[0]), acts[1..], w');
      assert acts[..|acts| - 1][1..] == acts[1..][..|acts| - 2];
    }
  }

  lemma RunNotEmpty(w: World, acts: seq<Actor>, w': World)
    requires Reaches(w, acts, w') && w' != w
    ensures acts != []
  {
  }

  lemma DecisionSettles(w: World, k: Token, a: Actor)
    requires Valid(w) && TokenAt(w, k) && Enabled(w, a) && Decides(w, a)
    ensures Settled(Advance(w, a))
  {
    hide Closed, Labelled, Counted, Check;
    BusyIsHolder(w, k, a.tid);
    assert forall t :: t in w.pc && t != a.tid ==> Parked(t, w.pc[t]);
  }

  /** The log only grows. */
  lemma AdvanceLogs(w: World, k: Token, a: Actor)
    requires Valid(w) && TokenAt(w, k) && Enabled(w, a)
    ensures w.log <= Advance(w, a).log
  {
    hide TokenAt, Check, MarkAsReady, Create, ReclaimOrder, WakeOne, Enrol, Terminate, Tick;
  }

  /** The exact round-robin bound over all interleavings. Thread `t` is ready at index `k`, the running
      thread has its priority and `q >= 1` units left. However the run goes on, once threads have run
      `scheduler_check` for `q + Q * k` times, `t` has been dispatched, unless a higher priority was. */
  lemma {:induction false} RoundRobinInEveryInterleaving(
      quantum: int, io: nat, priority: nat, body: Script, acts: seq<Actor>, w: World,
      more: seq<Actor>, w': World, t: Tid, k: nat)
    returns (j: nat)
    requires 1 <= quantum && priority <= MAX_PRIORITY
    requires Reaches(Initial(quantum, io, priority, body), acts, w) && Settled(w) && Reaches(w, more, w')
    requires Disciplined(Boot(quantum, io, priority, body), |acts| + |more|)
    requires Queuing(w.s, t, k) && Distance(w.s, k) <= Decisions(w, more)
    requires forall j :: |w.log| <= j < |w'.log| && w'.log[j].Dispatched? ==> w'.log[j].tid.priority <= t.priority
    ensures |w.log| <= j < |w'.log| && w'.log[j] == Dispatched(t)
    decreases |more|
  {
    hide TokenAt, Boot, Reaches, Disciplined, Settled, Queuing, Decisions, Distance, Initial, Advance;
    if Settled(w') {
      j := RoundRobinSettled(quantum, io, priority, body, acts, w, more, w', t, k);
    } else {
      RunNotEmpty(w, more, w');
      InitialToken(quantum, io, priority, body);
      var token := RunToken(Initial(quantum, io, priority, body), ByMain, acts, w);
      var w1, token1 := LastStep(w, token, more, w');
      var last := |more| - 1;
      if Decides(w1, more[last]) {
        DecisionSettles(w1, token1, more[last]);
      }
      AdvanceLogs(w1, token1, more[last]);
      DisciplinedBefore(Boot(quantum, io, priority, body), |acts| + |more|, |acts| + last);
      j := RoundRobinInEveryInterleaving(quantum, io, priority, body, acts, w, more[..last], w1, t, k);
    }
  }
}
