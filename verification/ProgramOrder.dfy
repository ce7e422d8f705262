/** Each thread runs its own handler: over whole runs and all interleavings, the calls a thread made
    followed by the calls it still has to make are the calls of the handler it was forked with. */
module ProgramOrder {
  import opened StableOrder
  import opened Scheduling
  import opened SequentialMachine
  import opened MachineSafety
  import opened ScheduleOrder
  import opened Effects
  import opened Interleaving
  import opened MutualExclusion
  import opened Refinement

  ghost function Ops(script: Script): seq<Op> {
    match script
    case Done => []
    case Then(op, rest) => [op] + Ops(rest)
  }

  /** The calls of thread `t` in a log. */
  ghost function CallsOf(log: seq<Event>, t: Tid): seq<Op> {
    if log == [] then [] else
      var last := log[|log| - 1];
      CallsOf(log[..|log| - 1], t) + if last.Called? && last.tid == t then [last.op] else []
  }

  lemma {:induction false} CallsAppend(log: seq<Event>, more: seq<Event>, t: Tid)
    ensures CallsOf(log + more, t) == CallsOf(log, t) + CallsOf(more, t)
    decreases |more|
  {
    if more == [] {
      assert log + more == log;
    } else {
      var last := |more| - 1;
      assert (log + more)[..|log + more| - 1] == log + more[..last];
      CallsAppend(log, more[..last], t);
    }
  }

  lemma {:induction false} NoCallsOf(log: seq<Event>, t: Tid)
    requires forall e :: e in log ==> !(e.Called? && e.tid == t)
    ensures CallsOf(log, t) == []
    decreases |log|
  {
    if log != [] {
      NoCallsOf(log[..|log| - 1], t);
    }
  }

  lemma OneCallOf(e: Event, t: Tid, op: Op)
    requires e == Called(t, op)
    ensures CallsOf([e], t) == [op]
  {
    assert [e][..0] == [];
  }

  /** The whole program of a thread, made and still to make. */
  ghost function Program(m: Machine, t: Tid): seq<Op>
    requires t in m.script
  {
    CallsOf(m.log, t) + Ops(m.script[t])
  }

  /** What a step logs: at most one call of the current thread, and nothing else that is a call. */
  lemma StepCalls(m: Machine) returns (rest: seq<Event>)
    requires WellFormed(m)
    ensures forall e :: e in rest ==> !e.Called?
    ensures var c := m.s.current.value;
      if m.frame[c] == Live && m.script[c].Then? then
        Step(m).log == m.log + [Called(c, m.script[c].op)] + rest && Step(m).script[c] == m.script[c].rest
      else
        Step(m).log == m.log + rest && Step(m).script[c] == m.script[c]
  {
    hide Check, Prologue, Terminate, Tick, Closed;
    var c := m.s.current.value;
    ClosedMembers(m.s);
    if m.frame[c] == Live && m.script[c].Then? {
      var op := m.script[c].op;
      if op.Fork? {
        NewIsNew(m.s, op.priority);
      }
      rest := if Rejected(m.s, op) then [Returned(c, Refusal(op))] else Announce(Decide(m.s, op));
      assert m.log + [Called(c, op), Returned(c, Refusal(op))] == m.log + [Called(c, op)] + [Returned(c, Refusal(op))];
    } else if m.frame[c] == Live {
      rest := [Event.Left(c)] + Announce(Check(Terminate(m.s, c)));
      assert m.log + rest == m.log + [Event.Left(c)] + Announce(Check(Terminate(m.s, c)));
    } else if m.frame[c] == Gone {
      rest := [];
    } else {
      rest := [if m.frame[c].Pending? then Returned(c, m.frame[c].ret) else Began(c)];
    }
  }

  lemma StepKeepsOthers(m: Machine, t: Tid)
    requires WellFormed(m) && t in m.script && m.s.current != Some(t)
    ensures t in Step(m).script && Step(m).script[t] == m.script[t]
  {
    hide Check, Prologue, Terminate, Tick, Closed;
    var c := m.s.current.value;
    ClosedMembers(m.s);
    if m.frame[c] == Live && m.script[c].Then? && m.script[c].op.Fork? {
      NewIsNew(m.s, m.script[c].op.priority);
    }
  }

  lemma StepFrames(m: Machine)
    requires WellFormed(m)
    ensures forall t :: t in Step(m).frame && Step(m).frame[t] == Gone ==>
      t in m.frame && (m.frame[t] == Gone || (t == m.s.current.value && m.script[t] == Done))
    ensures m.s.current.value in Step(m).script
    ensures m.frame[m.s.current.value] == Gone || m.script[m.s.current.value] == Done ==>
      Step(m).script[m.s.current.value] == m.script[m.s.current.value]
  {
    hide Check, Prologue, Terminate, Tick, Closed;
    ClosedMembers(m.s);
  }

  lemma StepKeepsProgram(m: Machine, t: Tid)
    requires WellFormed(m) && t in m.script
    ensures t in Step(m).script && Program(Step(m), t) == Program(m, t)
  {
    hide Step, CallsOf, Closed;
    ClosedMembers(m.s);
    var c := m.s.current.value;
    var rest := StepCalls(m);
    NoCallsOf(rest, t);
    var made := CallsOf(m.log, t);
    assert made + [] == made;
    if m.frame[c] == Live && m.script[c].Then? {
      var op := m.script[c].op;
      CallsAppend(m.log + [Called(c, op)], rest, t);
      CallsAppend(m.log, [Called(c, op)], t);
      if t == c {
        OneCallOf(Called(c, op), t, op);
        assert made + [op] + [] == made + [op];
        assert made + [op] + Ops(m.script[c].rest) == made + ([op] + Ops(m.script[c].rest));
      } else {
        NoCallsOf([Called(c, op)], t);
      }
    } else {
      CallsAppend(m.log, rest, t);
    }
    StepFrames(m);
    if t != c {
      StepKeepsOthers(m, t);
    }
  }

  lemma {:induction false} RunKeepsProgram(m: Machine, t: Tid, n: nat)
    requires WellFormed(m) && t in m.script
    ensures t in After(m, n).script && Program(After(m, n), t) == Program(m, t)
  {
    hide Step, WellFormed, Program;
    if n != 0 {
      RunKeepsProgram(m, t, n - 1);
      StepKeepsProgram(After(m, n - 1), t);
    }
  }

  /** Every event is one of a thread that exists, and a thread past its handler has no call left. */
  ghost predicate Orderly(m: Machine) {
    && (forall e :: e in m.log ==> e.tid in m.script)
    && (forall t :: t in m.frame && m.frame[t] == Gone ==> t in m.script && m.script[t] == Done)
  }

  lemma StepOrderly(m: Machine)
    requires WellFormed(m) && Orderly(m)
    ensures Orderly(Step(m))
  {
    hide Step, Closed;
    var c := m.s.current.value;
    ClosedMembers(m.s);
    StepEvents(m);
    StepFrames(m);
    forall t | t in m.script ensures t in Step(m).script && (t != c ==> Step(m).script[t] == m.script[t]) {
      StepKeepsProgram(m, t);
      if t != c {
        StepKeepsOthers(m, t);
      }
    }
  }

  lemma StepEvents(m: Machine)
    requires WellFormed(m)
    ensures forall e :: e in Step(m).log ==> e in m.log || e.tid == m.s.current.value || e.tid in Step(m).script
  {
    hide Check, Prologue, Terminate, Tick, Closed;
    ClosedMembers(Step(m).s);
  }

  lemma {:induction false} RunOrderly(m: Machine, n: nat)
    requires WellFormed(m) && Orderly(m)
    ensures Orderly(After(m, n))
  {
    hide Step, WellFormed, Orderly;
    if n != 0 {
      RunOrderly(m, n - 1);
      StepOrderly(After(m, n - 1));
    }
  }

  lemma BootOrderly(quantum: int, io: nat, priority: nat, body: Script)
    ensures var m := Boot(quantum, io, priority, body);
      Orderly(m) && Tid(0, priority) in m.script && Program(m, Tid(0, priority)) == Ops(body)
  {
    hide Boot, CallsOf;
    BootExactly(quantum, io, priority, body);
    NoCallsOf(Boot(quantum, io, priority, body).log, Tid(0, priority));
  }

  /** A fork gives the new thread the handler it was called with, and the new thread made no call yet. */
  lemma ForkGivesHandler(m: Machine)
    requires WellFormed(m) && Orderly(m) && m.frame[m.s.current.value] == Live
    requires m.script[m.s.current.value].Then? && m.script[m.s.current.value].op.Fork?
    requires m.script[m.s.current.value].op.priority <= MAX_PRIORITY
    ensures var op := m.script[m.s.current.value].op;
      Tid(m.s.count, op.priority) in Step(m).script
      && Program(Step(m), Tid(m.s.count, op.priority)) == Ops(op.body)
  {
    hide CallsOf, Check, Closed, Prologue, Tick;
    ClosedMembers(m.s);
    var op := m.script[m.s.current.value].op;
    var child := Tid(m.s.count, op.priority);
    NewIsNew(m.s, op.priority);
    NoCallsOf(Step(m).log, child);
  }

  // ----- Over all interleavings -----

  /** The program of a thread of the world, its calls made and still to make. */
  ghost function ProgramIn(w: World, t: Tid): seq<Op>
    requires t in w.script
  {
    CallsOf(w.log, t) + Ops(w.script[t])
  }

  lemma ProgramCompletes(w: World, k: Token, t: Tid)
    requires TokenAt(w, k) && t in w.script
    ensures t in Complete(w, k).script && Program(Complete(w, k), t) == ProgramIn(w, t)
  {
    hide Placed, Counted, Labelled, Closed, CallsOf, Ops, Frames, DecisionAhead, Check;
    if w.main.AtFork? {
      NewIsNew(w.s, w.main.priority);
    }
    if DecisionAhead(w, k).Some? {
      var news := Announce(Check(DecisionAhead(w, k).value));
      NoCallsOf(news, t);
      CallsAppend(w.log, news, t);
    }
  }

  lemma AdvanceKeepsScripts(w: World, k: Token, a: Actor)
    requires Valid(w) && TokenAt(w, k) && Enabled(w, a)
    ensures w.script.Keys <= Advance(w, a).script.Keys
  {
    hide TokenAt, Check, MarkAsReady, Create, ReclaimOrder, WakeOne, Enrol, Terminate, Tick;
  }

  lemma {:induction false} RunKeepsScripts(w: World, k: Token, acts: seq<Actor>, w': World)
    requires TokenAt(w, k) && Reaches(w, acts, w')
    ensures w.script.Keys <= w'.script.Keys
    decreases |acts|
  {
    hide TokenAt, Advance, NextToken;
    if acts != [] {
      AdvanceMovesToken(w, k, acts[0]);
      AdvanceKeepsScripts(w, k, acts[0]);
      RunKeepsScripts(Advance(w, acts[0]), NextToken(w, k, acts[0]), acts[1..], w');
    }
  }

  /** However a run goes on from a reachable world, every thread of it keeps its program. */
  lemma ProgramStays(w: World, k: Token, acts: seq<Actor>, w': World, t: Tid) returns (k': Token)
    requires TokenAt(w, k) && Reaches(w, acts, w') && t in w.script
    ensures TokenAt(w', k') && t in w'.script && ProgramIn(w', t) == ProgramIn(w, t)
  {
    hide TokenAt, Complete, Program, ProgramIn, WellFormed, After, Reaches;
    var n: nat;
    k', n := RunRefines(w, k, acts, w');
    RunKeepsScripts(w, k, acts, w');
    ProgramCompletes(w, k, t);
    ProgramCompletes(w', k', t);
    RunKeepsProgram(Complete(w, k), t, n);
  }

  /** What a reachable world stands for. */
  lemma OrderlySoFar(quantum: int, io: nat, priority: nat, body: Script, acts: seq<Actor>, w: World)
    returns (k: Token)
    requires priority <= MAX_PRIORITY && Reaches(Initial(quantum, io, priority, body), acts, w)
    ensures TokenAt(w, k) && Orderly(Complete(w, k))
    ensures Tid(0, priority) in w.script ==> ProgramIn(w, Tid(0, priority)) == Ops(body)
  {
    hide TokenAt, Complete, Program, ProgramIn, WellFormed, After, Reaches, Boot, Orderly, Ops;
    var n: nat;
    k, n := InterleavingsRefineSchedule(quantum, io, priority, body, acts, w);
    BootOrderly(quantum, io, priority, body);
    RunOrderly(Boot(quantum, io, priority, body), n);
    RunKeepsProgram(Boot(quantum, io, priority, body), Tid(0, priority), n);
    if Tid(0, priority) in w.script {
      ProgramCompletes(w, k, Tid(0, priority));
    }
  }

  /** In every world that any interleaving reaches, the first thread's calls are those of the handler
      that the main thread forked, made in order up to where its script stands. */
  lemma FirstRunsItsHandler(quantum: int, io: nat, priority: nat, body: Script, acts: seq<Actor>, w: World)
    requires priority <= MAX_PRIORITY && Reaches(Initial(quantum, io, priority, body), acts, w)
    requires Tid(0, priority) in w.script
    ensures ProgramIn(w, Tid(0, priority)) == Ops(body)
  {
    hide *;
    var k := OrderlySoFar(quantum, io, priority, body, acts, w);
  }

  lemma ForkSpawns(w: World, t: Tid, w1: World)
    requires TokenAt(w, Holder(t)) && w.pc[t] == Handler && w1 == StepHandler(w, t)
    requires w.script[t].Then? && w.script[t].op.Fork? && w.script[t].op.priority <= MAX_PRIORITY
    ensures t in w.script && Tid(w.s.count, w.script[t].op.priority) in w1.script
    ensures var m := Complete(w, Holder(t));
      && m.s.current == Some(t) && m.s.count == w.s.count
      && t in m.frame && m.frame[t] == Live && t in m.script && m.script[t] == w.script[t]
  {
    hide Closed, Labelled, Counted, Placed, Complete, Frames, DecisionAhead, Check;
    BusyHolder(w, t);
    HandlerIsCurrent(w, t);
    CompleteIdle(w, Holder(t));
    FramesAt(w.s, w.pc, t);
  }

  lemma ForkProgram(w: World, t: Tid, w1: World)
    requires TokenAt(w, Holder(t)) && w.pc[t] == Handler && w1 == StepHandler(w, t)
    requires w.script[t].Then? && w.script[t].op.Fork? && w.script[t].op.priority <= MAX_PRIORITY
    requires Orderly(Complete(w, Holder(t)))
    ensures TokenAt(w1, Holder(t)) && Tid(w.s.count, w.script[t].op.priority) in w1.script
    ensures ProgramIn(w1, Tid(w.s.count, w.script[t].op.priority)) == Ops(w.script[t].op.body)
  {
    hide TokenAt, Complete, Program, ProgramIn, Orderly, Ops, StepHandler, Step;
    ForkSpawns(w, t, w1);
    HandlerKeepsToken(w, t);
    HandlerRefines(w, t, w1);
    ForkGivesHandler(Complete(w, Holder(t)));
    ProgramCompletes(w1, Holder(t), Tid(w.s.count, w.script[t].op.priority));
  }

  lemma HandlerAdvances(w: World, k: Token, t: Tid)
    requires Valid(w) && Enabled(w, Thread(t)) && TokenAt(w, k) && w.pc[t] == Handler
    ensures k == Holder(t) && Advance(w, Thread(t)) == StepHandler(w, t)
  {
    hide StepHandler, Closed, Labelled, Counted;
    BusyIsHolder(w, k, t);
  }

  /** In every interleaving, a fork gives the new thread the handler it was called with, and in whatever
      way the run goes on from there, the new thread makes that handler's calls in order. */
  lemma ChildRunsItsHandler(quantum: int, io: nat, priority: nat, body: Script, acts: seq<Actor>, w: World, t: Tid,
                            w1: World, more: seq<Actor>, w': World)
    requires priority <= MAX_PRIORITY && Reaches(Initial(quantum, io, priority, body), acts, w)
    requires Valid(w) && Enabled(w, Thread(t)) && w.pc[t] == Handler && t in w.script
    requires w.script[t].Then? && w.script[t].op.Fork? && w.script[t].op.priority <= MAX_PRIORITY
    requires w1 == Advance(w, Thread(t)) && Reaches(w1, more, w')
    ensures var child := Tid(w.s.count, w.script[t].op.priority);
      child in w'.script && ProgramIn(w', child) == Ops(w.script[t].op.body)
  {
    hide *;
    var k := OrderlySoFar(quantum, io, priority, body, acts, w);
    HandlerAdvances(w, k, t);
    ForkProgram(w, t, w1);
    var k' := ProgramStays(w1, Holder(t), more, w', Tid(w.s.count, w.script[t].op.priority));
  }

  /** A thread that exits has made all the calls of its handler, in order, and no others. */
  lemma ExitedRanItsHandler(quantum: int, io: nat, priority: nat, body: Script, acts: seq<Actor>, w: World, t: Tid)
    requires priority <= MAX_PRIORITY && Reaches(Initial(quantum, io, priority, body), acts, w)
    requires t in w.pc && (w.pc[t].Exiting? || w.pc[t].Exited?)
    ensures t in w.script && CallsOf(w.log, t) == ProgramIn(w, t)
  {
    hide Closed, Placed, Counted, Labelled, Complete, CallsOf, Frames, Reaches, Initial;
    var k := OrderlySoFar(quantum, io, priority, body, acts, w);
    GoneCompletes(w, k, t);
    assert w.script[t] == Done;
    assert CallsOf(w.log, t) + [] == CallsOf(w.log, t);
  }

  lemma GoneCompletes(w: World, k: Token, t: Tid)
    requires TokenAt(w, k) && t in w.pc && (w.pc[t].Exiting? || w.pc[t].Exited?)
    ensures t in w.script && t in Complete(w, k).frame && Complete(w, k).frame[t] == Gone
    ensures t in Complete(w, k).script && Complete(w, k).script[t] == w.script[t]
  {
    hide Placed, Counted, Labelled, Closed, DecisionAhead, Check, Frames;
    FramesAt(w.s, w.pc, t);
    if w.main.AtFork? {
      NewIsNew(w.s, w.main.priority);
    }
  }
}
