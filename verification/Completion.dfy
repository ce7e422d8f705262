/** Every run ends, and how: a measure that each step of any actor decreases, exactly one post of
    `end`, and a shutdown that reclaims every thread once unless threads are still waiting. */
module Completion {
  import opened StableOrder
  import opened Scheduling
  import opened Conservation
  import opened SequentialMachine
  import opened MachineSafety
  import opened Interleaving
  import opened MutualExclusion
  import opened Refinement

  // ----- A measure -----

  /** An upper bound on the steps a script still causes, its children's included. */
  ghost function Size(script: Script): nat {
    match script
    case Done => 0
    case Then(op, rest) => 12 + (if op.Fork? then 11 + Size(op.body) else 0) + Size(rest)
  }

  /** How far a thread is from its next return to its handler, or from its exit. */
  ghost function Potential(pc: Pc): nat {
    match pc
    case Start => 11
    case Handler => 10
    case Forking(_) => 20
    case Waking(_, _) => 17
    case Entering(_) => 16
    case Deciding(next) => if next.Park? then 15 else 9
    case PostingEnd(_, next) => if next.Park? then 14 else 8
    case Posting(_, next) => if next.Park? then 13 else 7
    case Blocking(_, _) => 11
    case Exiting => 1
    case Exited => 0
  }

  ghost function Costs(w: World): map<Tid, nat>
    requires w.script.Keys == w.pc.Keys
  {
    map t | t in w.pc :: Potential(w.pc[t]) + Size(w.script[t])
  }

  /** The queue entries; a waiting thread still has to be moved once. */
  ghost function Entries(s: Sched): nat {
    |s.ready| + |s.finished| + 2 * |Flatten(s.waiting)|
  }

  ghost function MainCost(w: World): nat {
    match w.main
    case AtFork(_, body) => 2 * Entries(w.s) + 50 + Size(body)
    case Marking(_) => 2 * Entries(w.s) + 10
    case Checking => 2 * Entries(w.s) + 6
    case Releasing(_) => 2 * Entries(w.s) + 4
    case Ending => 2 * Entries(w.s) + 3
    case AwaitingEnd => 2 * Entries(w.s) + 2
    case Reclaiming(todo, _) => Entries(w.s) + |todo|
  }

  ghost function Measure(w: World): nat
    requires w.script.Keys == w.pc.Keys
  {
    Total(Costs(w)) + MainCost(w)
  }

  lemma {:induction false} TotalRemove(m: map<Tid, nat>, t: Tid)
    requires t in m
    ensures Total(m) == m[t] + Total(m - {t})
    decreases |m|
  {
    var u :| u in m && Total(m) == m[u] + Total(m - {u});
    if u != t {
      TotalRemove(m - {u}, t);
      TotalRemove(m - {t}, u);
      assert m - {u} - {t} == m - {t} - {u};
    }
  }

  lemma TotalUpdate(m: map<Tid, nat>, t: Tid, v: nat)
    ensures Total(m[t := v]) == Total(m) + v - if t in m then m[t] else 0
  {
    TotalRemove(m[t := v], t);
    assert m[t := v] - {t} == m - {t};
    if t in m {
      TotalRemove(m, t);
    } else {
      assert m - {t} == m;
    }
  }

  lemma EntriesAfterPush(s: Sched, t: Tid)
    requires Closed(s) && t in s.tcb
    ensures Entries(MarkAsReady(s, t)) == Entries(s) + 1 && Entries(Retire(s, t)) == Entries(s) + 1
  {
    PushContents(s.ready, t);
    PushContents(s.finished, t);
  }

  lemma EntriesAfterPlan(s: Sched)
    requires Closed(s) && s.ready != []
    ensures Entries(PlanNext(s)) == Entries(s) - 1
  {
    hide Flatten;
  }

  lemma EntriesAfterCheck(s: Sched)
    requires Checkable(s)
    ensures Entries(Check(s).next) <= Entries(s)
  {
    hide MarkAsReady, Retire, Entries, PlanNext;
    if s.ready != [] {
      EntriesAfterPlan(s);
      if s.current.Some? {
        EntriesAfterSwap(s, s.current.value);
      }
    }
    if s.current.Some? {
      RelabelEntries(s, s.tcb[s.current.value := s.tcb[s.current.value].(left := s.quantum)]);
    }
  }

  lemma EntriesAfterSwap(s: Sched, c: Tid)
    requires Closed(s) && s.ready != [] && c in s.tcb
    ensures Entries(PlanNext(MarkAsReady(s, c))) == Entries(s) && Entries(PlanNext(Retire(s, c))) == Entries(s)
  {
    hide Entries, PlanNext;
    PushContents(s.ready, c);
    EntriesAfterPush(s, c);
    EntriesAfterPlan(MarkAsReady(s, c));
    EntriesAfterPlan(Retire(s, c));
  }

  lemma RelabelEntries(s: Sched, tcb: map<Tid, Tcb>)
    ensures Entries(s.(tcb := tcb)) == Entries(s)
  {
  }

  lemma EntriesAfterEnrol(s: Sched, io: nat)
    requires Closed(s) && s.current.Some? && io < |s.waiting|
    ensures Entries(Enrol(s, io)) == Entries(s) + 2
  {
    hide Flatten, Push;
    EnrolMoves(s, io);
    assert |Queued(Enrol(s, io))| == |Queued(s)| + 1;
  }

  lemma EntriesAfterWake(s: Sched, io: nat)
    requires Closed(s) && io < |s.waiting| && s.waiting[io] != []
    ensures Entries(WakeOne(s, io)) == Entries(s) - 1
  {
    hide Flatten, Push;
    WakeOneMoves(s, io);
    PushContents(s.ready, s.waiting[io][0]);
    assert |Queued(WakeOne(s, io))| == |Queued(s)|;
  }

  ghost function Cost(w: World, t: Tid): nat
    requires t in w.pc && t in w.script
  {
    Potential(w.pc[t]) + Size(w.script[t])
  }

  lemma CostsMove(w: World, w': World, t: Tid)
    requires w.script.Keys == w.pc.Keys && t in w.pc && t in w'.pc && t in w'.script
    requires w'.pc == w.pc[t := w'.pc[t]] && w'.script == w.script[t := w'.script[t]]
    ensures Total(Costs(w')) == Total(Costs(w)) + Cost(w', t) - Cost(w, t)
  {
    hide Total, Size, Potential;
    assert Costs(w') == Costs(w)[t := Cost(w', t)];
    TotalUpdate(Costs(w), t, Cost(w', t));
  }

  lemma CostsGrow(w: World, w': World, child: Tid, body: Script)
    requires w.script.Keys == w.pc.Keys && child !in w.pc
    requires w'.pc == w.pc[child := Start] && w'.script == w.script[child := body]
    ensures Total(Costs(w')) == Total(Costs(w)) + 11 + Size(body)
  {
    hide Total, Costs, Size;
    GrownCosts(w, w', child, body);
    TotalUpdate(Costs(w), child, 11 + Size(body));
    assert child !in Costs(w) by { CostsKeys(w); }
  }

  lemma CostsKeys(w: World)
    requires w.script.Keys == w.pc.Keys
    ensures Costs(w).Keys == w.pc.Keys
  {
  }

  lemma GrownCosts(w: World, w': World, child: Tid, body: Script)
    requires w.script.Keys == w.pc.Keys && child !in w.pc
    requires w'.pc == w.pc[child := Start] && w'.script == w.script[child := body]
    ensures Costs(w') == Costs(w)[child := 11 + Size(body)]
  {
    hide Size;
    var costs := Costs(w)[child := 11 + Size(body)];
    assert Costs(w').Keys == costs.Keys;
    forall t | t in Costs(w') ensures Costs(w')[t] == costs[t] {
    }
  }

  /** What a step of thread `t` that leaves the main thread alone does to the measure. */
  lemma MeasureMoves(w: World, w': World, t: Tid)
    requires w.script.Keys == w.pc.Keys && w'.script.Keys == w'.pc.Keys && w'.main == w.main
    requires Total(Costs(w')) + 2 * Entries(w'.s) < Total(Costs(w)) + 2 * Entries(w.s)
    requires Total(Costs(w')) + Entries(w'.s) < Total(Costs(w)) + Entries(w.s)
    ensures Measure(w') < Measure(w)
  {
    hide Total, Costs, Entries, Size;
  }

  lemma WakeDecreases(w: World, t: Tid)
    requires w.script.Keys == w.pc.Keys && Enabled(w, Thread(t)) && Parked(t, w.pc[t])
    ensures StepParked(w, t).script.Keys == StepParked(w, t).pc.Keys && Measure(StepParked(w, t)) < Measure(w)
  {
    hide Total, Costs, Entries;
    CostsMove(w, StepParked(w, t), t);
    MeasureMoves(w, StepParked(w, t), t);
  }

  lemma HandlerDecreases(w: World, t: Tid, w': World)
    requires TokenAt(w, Holder(t)) && w.pc[t] == Handler && w' == StepHandler(w, t) && w'.script.Keys == w'.pc.Keys
    ensures Measure(w') < Measure(w)
  {
    hide Closed, Labelled, Counted, Total, Costs, Entries, Issue, Terminate, Rejected;
    match w.script[t]
    case Done =>
      CostsMove(w, w', t);
      TerminateEntries(w.s, t);
      MeasureMoves(w, w', t);
    case Then(op, rest) =>
      if Rejected(w.s, op) {
        CostsMove(w, w', t);
        MeasureMoves(w, w', t);
      } else {
        IssueDecreases(w, t, op, rest, w');
      }
  }

  lemma TerminateEntries(s: Sched, t: Tid)
    requires Closed(s) && t in s.tcb
    ensures Entries(Terminate(s, t)) == Entries(s)
  {
  }

  lemma IssueDecreases(w: World, t: Tid, op: Op, rest: Script, w': World)
    requires TokenAt(w, Holder(t)) && w.pc[t] == Handler && w.script[t] == Then(op, rest) && !Rejected(w.s, op)
    requires w' == Issue(w, t, op, rest) && w'.script.Keys == w'.pc.Keys
    ensures Measure(w') < Measure(w)
  {
    hide Closed, Labelled, Counted, Total, Costs, Entries, Enrol;
    if op.Fork? {
      ForkDecreases(w, t, op, rest, w');
    } else {
      if op.Wait? {
        EntriesAfterEnrol(w.s, op.io);
      }
      CostsMove(w, w', t);
      MeasureMoves(w, w', t);
    }
  }

  lemma ForkIssues(w: World, t: Tid, op: Op, rest: Script)
    requires TokenAt(w, Holder(t)) && w.pc[t] == Handler && w.script[t] == Then(op, rest) && !Rejected(w.s, op)
    requires op.Fork?
    ensures var w', child := Issue(w, t, op, rest), NewTid(w.s, op.priority);
      && t in w.pc && child !in w.pc && w.script.Keys == w.pc.Keys && w'.main == w.main
      && w'.pc == w.pc[child := Start][t := Forking(child)]
      && w'.script == w.script[child := op.body][t := rest]
      && Entries(w'.s) == Entries(w.s)
  {
    hide Closed, Labelled, Counted, Placed, Flatten;
    BusyHolder(w, t);
    NewIsNew(w.s, op.priority);
    assert w.script[t := rest][NewTid(w.s, op.priority) := op.body]
        == w.script[NewTid(w.s, op.priority) := op.body][t := rest];
  }

  lemma ForkDecreases(w: World, t: Tid, op: Op, rest: Script, w': World)
    requires TokenAt(w, Holder(t)) && w.pc[t] == Handler && w.script[t] == Then(op, rest) && !Rejected(w.s, op)
    requires op.Fork? && w' == Issue(w, t, op, rest) && w'.script.Keys == w'.pc.Keys
    ensures Measure(w') < Measure(w)
  {
    hide TokenAt, Issue, Entries, Total, Costs, Rejected;
    var child := NewTid(w.s, op.priority);
    ForkIssues(w, t, op, rest);
    var grown := w.(pc := w.pc[child := Start], script := w.script[child := op.body]);
    CostsGrow(w, grown, child, op.body);
    CostsMove(grown, w', t);
    MeasureMoves(w, w', t);
  }

  lemma SameCosts(w: World, w': World)
    requires w.script.Keys == w.pc.Keys && w'.pc == w.pc && w'.script == w.script
    ensures Costs(w) == Costs(w')
  {
  }

  /** A step inside the scheduler brings its thread nearer to its return. */
  lemma BusyMoves(w: World, t: Tid, w': World)
    requires TokenAt(w, Holder(t)) && w.pc[t] != Handler && w' == StepBusy(w, t)
    ensures t in w.pc && t in w'.pc && w'.pc == w.pc[t := w'.pc[t]] && w'.script == w.script && w'.main == w.main
    ensures w.pc[t].Forking? ==> Potential(w'.pc[t]) + 4 <= Potential(w.pc[t])
    ensures w.pc[t].Waking? && w'.pc[t].Waking? ==> Potential(w'.pc[t]) == Potential(w.pc[t])
    ensures !(w.pc[t].Waking? && w'.pc[t].Waking?) ==> Potential(w'.pc[t]) < Potential(w.pc[t])
  {
    hide Closed, Labelled, Counted, Placed, Check, MarkAsReady, WakeOne, Tick;
    BusyHolder(w, t);
  }

  lemma SameScript(w: World, t: Tid)
    requires TokenAt(w, Holder(t))
    ensures t in w.pc && w.script.Keys == w.pc.Keys && w.script[t := w.script[t]] == w.script
  {
    hide Closed, Labelled, Counted;
  }

  lemma BusyDecreases(w: World, t: Tid, w': World)
    requires TokenAt(w, Holder(t)) && w.pc[t] != Handler && w' == StepBusy(w, t) && w'.script.Keys == w'.pc.Keys
    ensures Measure(w') < Measure(w)
  {
    hide TokenAt, Total, Costs, Entries, Measure, StepBusy, Potential, Size;
    BusyMoves(w, t, w');
    BusyEntries(w, t, w');
    assert w'.script[t := w'.script[t]] == w'.script by { SameScript(w, t); }
    CostsMove(w, w', t);
    MeasureMoves(w, w', t);
  }

  lemma BusyEntries(w: World, t: Tid, w': World)
    requires TokenAt(w, Holder(t)) && w.pc[t] != Handler && w' == StepBusy(w, t)
    ensures w.pc[t].Forking? ==> Entries(w'.s) == Entries(w.s) + 1
    ensures w.pc[t].Waking? && w'.pc[t].Waking? ==> Entries(w'.s) == Entries(w.s) - 1
    ensures !w.pc[t].Forking? ==> Entries(w'.s) <= Entries(w.s)
  {
    hide Labelled, Counted, Entries, Check, MarkAsReady, WakeOne, Tick;
    match w.pc[t]
    case Forking(child) => EntriesAfterPush(w.s, child);
    case Waking(io, _) => if w.s.waiting[io] != [] { EntriesAfterWake(w.s, io); }
    case Entering(_) => TickEntries(w.s);
    case Deciding(_) => DecidingEntries(w, t);
    case _ =>
  }

  lemma DecidingEntries(w: World, t: Tid)
    requires TokenAt(w, Holder(t)) && w.pc[t].Deciding?
    ensures Entries(StepBusy(w, t).s) <= Entries(w.s)
  {
    hide Labelled, Counted, Check, Entries;
    EntriesAfterCheck(w.s);
  }

  lemma TickEntries(s: Sched)
    requires Closed(s) && s.current.Some?
    ensures Entries(Tick(s)) == Entries(s)
  {
  }

  lemma MainForkDecreases(w: World, w': World)
    requires Closed(w.s) && w.main.AtFork? && w' == StepMain(w)
    requires w.script.Keys == w.pc.Keys == w.s.tcb.Keys && w'.script.Keys == w'.pc.Keys
    ensures Measure(w') < Measure(w)
  {
    hide Total, Costs, Flatten, Closed;
    CostsGrow(w, w', NewTid(w.s, w.main.priority), w.main.body);
  }

  lemma MainEndsDecreases(w: World, w': World)
    requires Closed(w.s) && MainFormed(w) && Enabled(w, Main) && w' == StepMain(w)
    requires !w.main.AtFork? && !w.main.Marking? && !w.main.Checking?
    requires w.script.Keys == w.pc.Keys == w.s.tcb.Keys
    ensures Measure(w') < Measure(w)
  {
    hide Total, Costs, Flatten, Closed;
    SameCosts(w, w');
  }

  lemma MainDecreases(w: World, w': World)
    requires Closed(w.s) && MainFormed(w) && Enabled(w, Main) && w' == StepMain(w)
    requires w.script.Keys == w.pc.Keys == w.s.tcb.Keys && w'.script.Keys == w'.pc.Keys
    ensures Measure(w') < Measure(w)
  {
    hide Total, Costs, Check, MarkAsReady, Entries, Closed;
    match w.main {
      case AtFork(_, _) =>
        MainForkDecreases(w, w');
      case Marking(child) =>
        EntriesAfterPush(w.s, child);
        SameCosts(w, w');
      case Checking =>
        EntriesAfterCheck(w.s);
        SameCosts(w, w');
      case _ =>
        MainEndsDecreases(w, w');
    }
  }

  /** Every step of every actor decreases the measure. */
  lemma AdvanceDecreases(w: World, k: Token, a: Actor)
    requires Valid(w) && TokenAt(w, k) && Enabled(w, a)
    ensures TokenAt(Advance(w, a), NextToken(w, k, a))
    ensures Measure(Advance(w, a)) < Measure(w)
  {
    hide Closed, Labelled, Counted, Measure, StepHandler, StepBusy, StepParked, StepMain;
    AdvanceMovesToken(w, k, a);
    match a
    case Main =>
      MainIsFormed(w);
      MainDecreases(w, Advance(w, a));
    case Thread(t) =>
      if w.pc[t].Start? || w.pc[t].Blocking? || w.pc[t].Exiting? {
        OutsideParked(w, t);
        WakeDecreases(w, t);
      } else {
        BusyIsHolder(w, k, t);
        if w.pc[t] == Handler {
          HandlerDecreases(w, t, Advance(w, a));
        } else {
          BusyDecreases(w, t, Advance(w, a));
        }
      }
  }

  lemma {:induction false} RunDecreases(w: World, k: Token, acts: seq<Actor>, w': World) returns (k': Token)
    requires TokenAt(w, k) && Reaches(w, acts, w')
    ensures TokenAt(w', k') && |acts| + Measure(w') <= Measure(w)
    decreases |acts|
  {
    hide Placed, Counted, Labelled, Closed, Advance, Measure, NextToken;
    if acts == [] {
      k' := k;
    } else {
      AdvanceDecreases(w, k, acts[0]);
      k' := RunDecreases(Advance(w, acts[0]), NextToken(w, k, acts[0]), acts[1..], w');
    }
  }

  /** No interleaving runs forever: its length is bounded by the size of the scripts alone. */
  lemma RunsAreBounded(quantum: int, io: nat, priority: nat, body: Script, acts: seq<Actor>, w: World)
    requires priority <= MAX_PRIORITY && Reaches(Initial(quantum, io, priority, body), acts, w)
    ensures |acts| <= 50 + Size(body)
  {
    hide Reaches;
    var w0 := Initial(quantum, io, priority, body);
    InitialToken(quantum, io, priority, body);
    var k := RunDecreases(w0, ByMain, acts, w);
    FlattenEmpty(w0.s.waiting);
    assert Costs(w0) == map[];
  }

  // ----- The end -----

  /** How many steps of the run post `end`. */
  ghost function EndPosts(w: World, acts: seq<Actor>): nat
    decreases |acts|
  {
    if acts == [] || !Valid(w) || !Enabled(w, acts[0]) then 0
    else (if PostsEnd(w, acts[0]) then 1 else 0) + EndPosts(Advance(w, acts[0]), acts[1..])
  }

  ghost predicate PostsEnd(w: World, a: Actor) {
    a.Thread? && a.tid in w.pc && w.pc[a.tid].PostingEnd?
  }

  /** Posts of `end` that are still in the semaphore or were taken by `so_end`. */
  ghost function EndCount(w: World): nat {
    w.end + if w.main.Reclaiming? then 1 else 0
  }

  lemma MainCountsEnd(w: World, k: Token)
    requires Valid(w) && TokenAt(w, k) && Enabled(w, Main)
    ensures EndCount(Advance(w, Main)) == EndCount(w)
  {
    hide TokenAt, Check, MarkAsReady, Create, ReclaimOrder;
    MainIsFormed(w);
    if w.main.Ending? {
      MainReadsCount(w, k);
    }
  }

  lemma AdvanceCountsEnd(w: World, k: Token, a: Actor)
    requires Valid(w) && TokenAt(w, k) && Enabled(w, a)
    ensures EndCount(Advance(w, a)) == EndCount(w) + if PostsEnd(w, a) then 1 else 0
  {
    hide TokenAt, Check, MarkAsReady, Create, ReclaimOrder, StepHandler, StepBusy, StepParked, Advance;
    match a
    case Main => MainCountsEnd(w, k);
    case Thread(t) => ThreadKeepsMain(w, k, t);
  }

  lemma {:induction false} RunCountsEnd(w: World, k: Token, acts: seq<Actor>, w': World)
    requires TokenAt(w, k) && Reaches(w, acts, w')
    ensures EndCount(w') == EndCount(w) + EndPosts(w, acts)
    decreases |acts|
  {
    hide TokenAt, Advance, NextToken, EndCount, PostsEnd;
    if acts != [] {
      AdvanceMovesToken(w, k, acts[0]);
      AdvanceCountsEnd(w, k, acts[0]);
      RunCountsEnd(Advance(w, acts[0]), NextToken(w, k, acts[0]), acts[1..], w');
    }
  }

  /** In no run is `end` posted twice, and only a terminated current thread that found nothing ready
      posts it. */
  lemma EndPostedOnce(quantum: int, io: nat, priority: nat, body: Script, acts: seq<Actor>, w: World, t: Tid)
    requires priority <= MAX_PRIORITY && Reaches(Initial(quantum, io, priority, body), acts, w)
    ensures EndPosts(Initial(quantum, io, priority, body), acts) <= 1
    ensures PostsEnd(w, Thread(t)) ==>
      EndCount(w) == 0 && t in w.s.tcb && w.s.current == Some(t) && w.s.ready == [] && w.s.tcb[t].status == Terminated
  {
    hide Closed, Labelled, Reaches, EndPosts;
    var w0 := Initial(quantum, io, priority, body);
    InitialToken(quantum, io, priority, body);
    RunCountsEnd(w0, ByMain, acts, w);
    var k := RunToken(w0, ByMain, acts, w);
    if PostsEnd(w, Thread(t)) {
      BusyIsHolder(w, k, t);
    }
  }

  // ----- Shutdown -----

  /** What `so_end` freed and what it still has to free is all there is, and all it freed has exited. */
  ghost predicate ReclaimsAll(w: World) {
    w.main.Reclaiming? ==>
      w.main.freed + w.main.todo == ReclaimOrder(w.s)
      && forall t :: t in w.main.freed ==> t in w.pc && w.pc[t].Exited?
  }

  lemma InitialReclaimsAll(quantum: int, io: nat, priority: nat, body: Script)
    ensures ReclaimsAll(Initial(quantum, io, priority, body))
  {
  }

  /** Once `so_end` got past its semaphore, the scheduler's data does not change any more. */
  lemma ThreadAfterEnd(w: World, k: Token, t: Tid)
    requires Valid(w) && Enabled(w, Thread(t)) && TokenAt(w, k) && w.main.Reclaiming?
    ensures Advance(w, Thread(t)).s == w.s && Advance(w, Thread(t)).main == w.main
    ensures forall u :: u in w.pc && w.pc[u].Exited? ==>
      u in Advance(w, Thread(t)).pc && Advance(w, Thread(t)).pc[u].Exited?
  {
    hide Closed, Labelled;
    assert Over(w, k);
    if !Parked(t, w.pc[t]) {
      BusyIsHolder(w, k, t);
    }
  }

  lemma AdvanceReclaimsAll(w: World, k: Token, a: Actor)
    requires Valid(w) && TokenAt(w, k) && Enabled(w, a) && ReclaimsAll(w)
    ensures ReclaimsAll(Advance(w, a))
  {
    hide Placed, Counted, Labelled, Closed, ReclaimOrder;
    match a
    case Main =>
      MainIsFormed(w);
      if w.main.Reclaiming? {
        assert w.main.todo == [w.main.todo[0]] + w.main.todo[1..];
      }
    case Thread(t) =>
      if w.main.Reclaiming? {
        hide Advance;
        ThreadAfterEnd(w, k, t);
      } else {
        ThreadKeepsMain(w, k, t);
      }
  }

  lemma {:induction false} RunReclaimsAll(w: World, k: Token, acts: seq<Actor>, w': World)
    requires TokenAt(w, k) && Reaches(w, acts, w') && ReclaimsAll(w)
    ensures ReclaimsAll(w')
    decreases |acts|
  {
    hide TokenAt, Advance, ReclaimsAll, NextToken;
    if acts != [] {
      AdvanceMovesToken(w, k, acts[0]);
      AdvanceReclaimsAll(w, k, acts[0]);
      RunReclaimsAll(Advance(w, acts[0]), NextToken(w, k, acts[0]), acts[1..], w');
    }
  }

  /** When nobody can move, a thread has exited exactly if it is labelled terminated. */
  lemma StuckThread(w: World, k: Token, t: Tid)
    requires TokenAt(w, k) && Stuck(w) && Safe(Complete(w, k)) && t in w.pc
    ensures w.pc[t].Exited? <==> w.s.tcb[t].status == Terminated
  {
    hide Closed, Labelled, Counted, Complete, Frames, Sane, WellFormed;
    StuckIsOver(w, k);
    FramesAt(w.s, w.pc, t);
    assert !Enabled(w, Thread(t));
    assert Agree(w.s.tcb[t].status, FrameOf(w.s, w.pc[t]));
    assert k != Holder(t);
  }

  /** When nobody can move, `so_end` got past its semaphore and has freed first the thread that ran last
      and then the finished ones, in their order; what is left are the threads that wait. */
  lemma StuckShutdown(w: World, k: Token)
    requires TokenAt(w, k) && Stuck(w) && Safe(Complete(w, k)) && ReclaimsAll(w)
    ensures w.main.Reclaiming? && w.s.ready == [] && w.s.current.Some?
    ensures w.main.freed == [w.s.current.value] + w.s.finished && w.main.todo == Flatten(w.s.waiting)
  {
    hide Closed, Labelled, Complete, Frames, Queued, Flatten, ReclaimOrder;
    var c := k.tid;
    StuckIsOver(w, k);
    StuckThread(w, k, c);
    assert Over(w, k) && !Enabled(w, Main);
    ReclaimParts(w.s);
    FreedAtLeast(w, k);
    FreedAtMost(w, k);
    SplitEqual(w.main.freed, w.main.todo, [c] + w.s.finished, Flatten(w.s.waiting));
  }

  lemma ReclaimParts(s: Sched)
    requires s.current.Some? && s.ready == []
    ensures ReclaimOrder(s) == [s.current.value] + s.finished + Flatten(s.waiting)
  {
    hide Flatten;
  }

  lemma SplitEqual(a: seq<Tid>, b: seq<Tid>, c: seq<Tid>, d: seq<Tid>)
    requires a + b == c + d && |a| == |c|
    ensures a == c && b == d
  {
    assert a == (a + b)[..|a|] && b == (a + b)[|a|..];
    assert c == (c + d)[..|c|] && d == (c + d)[|c|..];
  }

  /** The main thread does not block before it has freed all the threads that ended. */
  lemma FreedAtLeast(w: World, k: Token)
    requires TokenAt(w, k) && Stuck(w) && Safe(Complete(w, k)) && Sane(w.s) && w.main.Reclaiming?
    requires k.Permit? && w.s.current == Some(k.tid) && w.s.tcb[k.tid].status == Terminated
    requires w.main.freed + w.main.todo == [k.tid] + w.s.finished + Flatten(w.s.waiting)
    ensures 1 + |w.s.finished| <= |w.main.freed|
  {
    hide Labelled, Counted, Complete, Queued, Flatten, Placed, Frames, Safe;
    var ended := [k.tid] + w.s.finished;
    var n := |w.main.freed|;
    assert !Enabled(w, Main);
    if n < |ended| {
      assert w.main.todo != [] && w.main.todo[0] == (w.main.freed + w.main.todo)[n] == ended[n];
      assert ended[n] == k.tid || ended[n] in w.s.finished;
      StuckThread(w, k, ended[n]);
    }
  }

  /** It has freed none of those that wait. */
  lemma FreedAtMost(w: World, k: Token)
    requires TokenAt(w, k) && Stuck(w) && Safe(Complete(w, k)) && Sane(w.s) && ReclaimsAll(w) && w.main.Reclaiming?
    requires k.Permit? && w.main.freed + w.main.todo == [k.tid] + w.s.finished + Flatten(w.s.waiting)
    ensures |w.main.freed| <= 1 + |w.s.finished|
  {
    hide Labelled, Counted, Complete, Queued, Flatten, Closed, Placed, Frames, Safe, Stuck, ReclaimOrder;
    var n := 1 + |w.s.finished|;
    if n < |w.main.freed| {
      var t := w.main.freed[n];
      assert t == (w.main.freed + w.main.todo)[n] == Flatten(w.s.waiting)[0];
      var d := FromFlatten(w.s.waiting, t);
      assert w.s.tcb[t].status == Waiting;
      StuckThread(w, k, t);
    }
  }

  /** Exactly when `so_end` gets past its semaphore: when nobody can move any more, it has, if and only
      if the thread that was scheduled last is labelled terminated. Otherwise it blocks forever. */
  lemma EndReachedExactly(w: World, k: Token)
    requires TokenAt(w, k) && Stuck(w)
    ensures w.s.current.Some? && w.s.current.value in w.s.tcb && w.end == 0
    ensures if w.s.tcb[w.s.current.value].status == Terminated then w.main.Reclaiming? else w.main.AwaitingEnd?
  {
    hide Closed, Labelled, Complete;
    StuckIsOver(w, k);
    assert !Enabled(w, Main);
  }

  /** Every interleaving can be continued until nobody can move, however far it got. */
  lemma {:induction false} RunsOut(w: World, k: Token) returns (acts: seq<Actor>, w': World)
    requires TokenAt(w, k)
    ensures Reaches(w, acts, w') && Stuck(w')
    decreases Measure(w)
  {
    hide Placed, Counted, Labelled, Closed, Advance, Measure, NextToken, Enabled;
    if Stuck(w) {
      acts, w' := [], w;
    } else {
      var a :| Enabled(w, a);
      AdvanceDecreases(w, k, a);
      acts, w' := RunsOut(Advance(w, a), NextToken(w, k, a));
      assert ([a] + acts)[1..] == acts;
      acts := [a] + acts;
    }
  }

  lemma {:induction false} ReachesAppend(w: World, acts: seq<Actor>, w1: World, more: seq<Actor>, w2: World)
    requires Reaches(w, acts, w1) && Reaches(w1, more, w2)
    ensures Reaches(w, acts + more, w2)
    decreases |acts|
  {
    hide Advance, Enabled, Interleaving.Valid;
    if acts == [] {
      assert acts + more == more;
    } else {
      ReachesAppend(Advance(w, acts[0]), acts[1..], w1, more, w2);
      assert (acts + more)[1..] == acts[1..] + more;
    }
  }

  /** Every run of a program, however it was interleaved so far, has a continuation to its end, and
      the whole of it is no longer than the size of the scripts allows. */
  lemma EveryRunEnds(quantum: int, io: nat, priority: nat, body: Script, acts: seq<Actor>, w: World)
    returns (more: seq<Actor>, w': World)
    requires priority <= MAX_PRIORITY && Reaches(Initial(quantum, io, priority, body), acts, w)
    ensures Reaches(Initial(quantum, io, priority, body), acts + more, w') && Stuck(w')
    ensures |acts| + |more| <= 50 + Size(body)
  {
    hide TokenAt, Reaches, Stuck;
    InitialToken(quantum, io, priority, body);
    var k := RunToken(Initial(quantum, io, priority, body), ByMain, acts, w);
    more, w' := RunsOut(w, k);
    ReachesAppend(Initial(quantum, io, priority, body), acts, w, more, w');
    RunsAreBounded(quantum, io, priority, body, acts + more, w');
  }

  /** The whole run of a program. If no thread of it waits with nobody ready, then however its
      threads are interleaved, when nobody can move any more `end` has been posted and taken, and
      `so_end` has joined and freed exactly the threads that ended, each once and each after it exited:
      first the one that ran last, then the finished ones in their order. What it has not freed is what
      is still waiting for a device, so it is through if and only if nobody is. */
  lemma ShutdownExactly(quantum: int, io: nat, priority: nat, body: Script, acts: seq<Actor>, w: World)
    requires 1 <= quantum && priority <= MAX_PRIORITY
    requires Disciplined(Boot(quantum, io, priority, body), |acts|)
    requires Reaches(Initial(quantum, io, priority, body), acts, w) && Stuck(w)
    ensures w.main.Reclaiming? && w.end == 0 && w.s.current.Some?
    ensures w.main.freed == [w.s.current.value] + w.s.finished
    ensures forall t :: t in w.main.freed ==> t in w.pc && w.pc[t].Exited?
    ensures multiset(w.main.freed) + multiset(Flatten(w.s.waiting)) == multiset(w.s.tcb.Keys)
    ensures multiset(w.main.freed) == multiset(w.s.tcb.Keys) <==> Flatten(w.s.waiting) == []
    ensures w.main.todo == [] <==> Flatten(w.s.waiting) == []
  {
    hide TokenAt, Complete, Boot, Stuck, Reaches, After, Disciplined, Safe, Flatten, WellFormed;
    var w0 := Initial(quantum, io, priority, body);
    var m := Boot(quantum, io, priority, body);
    InitialToken(quantum, io, priority, body);
    var k, n := InterleavingsRefineSchedule(quantum, io, priority, body, acts, w);
    DisciplinedBefore(m, |acts|, n);
    BootSafe(quantum, io, priority, body);
    RunSafe(m, n);
    RunReclaimsAll(w0, ByMain, acts, w);
    StuckShutdown(w, k);
    ReclaimedAll(w, k);
  }

  lemma ReclaimedAll(w: World, k: Token)
    requires TokenAt(w, k) && Stuck(w) && Safe(Complete(w, k)) && ReclaimsAll(w) && w.main.Reclaiming?
    requires w.main.todo == Flatten(w.s.waiting)
    ensures w.end == 0
    ensures multiset(w.main.freed) + multiset(Flatten(w.s.waiting)) == multiset(w.s.tcb.Keys)
    ensures multiset(w.main.freed) == multiset(w.s.tcb.Keys) <==> Flatten(w.s.waiting) == []
  {
    hide Labelled, Complete, Closed, Flatten, Placed, Stuck;
    StuckIsOver(w, k);
    ReclaimOrderIsAll(w.s) by { assert Partition(w.s); }
    assert multiset(w.main.freed + w.main.todo) == multiset(w.main.freed) + multiset(w.main.todo);
    if w.main.todo != [] {
      assert |multiset(w.main.freed)| < |multiset(w.s.tcb.Keys)|;
    }
  }

  lemma ReclaimOrderIsAll(s: Sched)
    requires Partition(s)
    ensures multiset(ReclaimOrder(s)) == multiset(s.tcb.Keys)
  {
  }
}
