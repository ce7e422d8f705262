/** The scheduler as the source writes it: an object with a current thread, priority queues and
    thread records, all changed in place. Each method is one stretch of the source without a
    blocking call; its contract names the value-level function it computes and the posts it makes. */
module SchedulerObject {
  import opened StableOrder
  import opened Scheduling
  import opened LinkedLists
  import opened PrioQueues
  import opened SequentialMachine
  import opened Conservation

  /** What a `so_handler *` points to. */
  datatype Handler = Handler(id: nat)

  /** `thread_t`, with its `running` semaphore as a count. */
  class ThreadRecord {
    const handler: Handler
    var status: Status
    var left: int
    var running: nat

    /** The record as `so_fork` fills it in. */
    constructor (handler: Handler, quantum: int)
      ensures this.handler == handler && status == Ready && left == quantum && running == 0
    {
      this.handler := handler;
      status, left, running := Ready, quantum, 0;
    }
  }

  class Scheduler {
    const quantum: int
    const ready: PrioQueue<Tid>
    const finished: PrioQueue<Tid>
    const waiting: seq<PrioQueue<Tid>>
    var thread: Option<Tid>
    var count: nat
    var end: nat
    /** What the thread pointers point to. */
    var threads: map<Tid, ThreadRecord>

    /** The scheduler's data as a value, and the counts of the threads' semaphores. */
    ghost var model: Sched
    ghost var sems: map<Tid, nat>
    ghost const queues: seq<PrioQueue<Tid>>
    ghost var Repr: set<object>

    /** The queue objects are apart from each other and from the thread records. */
    ghost predicate Apart()
      reads this`Repr, this`threads, Repr - {this}
    {
      && this in Repr
      && |queues| == |waiting| + 2 && queues[0] == ready && queues[1] == finished
      && (forall d :: 0 <= d < |waiting| ==> queues[d + 2] == waiting[d])
      && (forall i :: 0 <= i < |queues| ==>
            queues[i] in Repr && queues[i].Repr <= Repr && this !in queues[i].Repr
            && queues[i].Valid() && queues[i].cmp == CompareThreads)
      && (forall i, j :: 0 <= i < j < |queues| ==> queues[i].Repr !! queues[j].Repr)
      && (forall t :: t in threads ==> threads[t] in Repr)
      && (forall t, i :: t in threads && 0 <= i < |queues| ==> threads[t] !in queues[i].Repr)
      && (forall t, u :: t in threads && u in threads && t != u ==> threads[t] != threads[u])
    }

    ghost predicate QueuesAre(r: seq<Tid>, f: seq<Tid>, w: seq<seq<Tid>>)
      requires Apart()
      reads this`Repr, this`threads, Repr - {this}
    {
      && r == queues[0].contents && f == queues[1].contents && |w| == |waiting|
      && (forall d :: 0 <= d < |waiting| ==> w[d] == queues[d + 2].contents)
    }

    ghost predicate RecordsAre(tcb: map<Tid, Tcb>, counts: map<Tid, nat>)
      reads this`threads, set t | t in threads :: threads[t]
    {
      && tcb.Keys == threads.Keys == counts.Keys
      && (forall t :: t in threads ==> counts[t] == threads[t].running)
      && (forall t :: t in threads ==> tcb[t] == Tcb(threads[t].status, threads[t].left))
    }

    /** The objects hold what `model` says. */
    ghost predicate Modelled()
      requires Apart()
      reads this, Repr
    {
      && model.quantum == quantum && model.current == thread && model.count == count
      && QueuesAre(model.ready, model.finished, model.waiting)
      && RecordsAre(model.tcb, sems)
    }

    ghost predicate Valid()
      reads this, Repr
    {
      Apart() && Modelled() && Closed(model)
    }

    /** The loop of `so_init`. */
    static method CreateQueues(n: nat) returns (qs: seq<PrioQueue<Tid>>, ghost all: set<object>)
      ensures |qs| == n && fresh(all) && forall i :: 0 <= i < n ==> qs[i].Repr <= all
      ensures forall i :: 0 <= i < n ==>
        qs[i].Valid() && fresh(qs[i].Repr) && qs[i].contents == [] && qs[i].cmp == CompareThreads
      ensures forall i, j :: 0 <= i < j < n ==> qs[i].Repr !! qs[j].Repr
    {
      qs, all := [], {};
      while |qs| < n
        invariant |qs| <= n && fresh(all) && forall i :: 0 <= i < |qs| ==> qs[i].Repr <= all
        invariant forall i :: 0 <= i < |qs| ==>
          qs[i].Valid() && fresh(qs[i].Repr) && qs[i].contents == [] && qs[i].cmp == CompareThreads
        invariant forall i, j :: 0 <= i < j < |qs| ==> qs[i].Repr !! qs[j].Repr
        modifies {}
      {
        var q := new PrioQueue<Tid>(CompareThreads);
        qs, all := qs + [q], all + q.Repr;
      }
    }

    /** `so_init` with arguments it accepts. */
    constructor (quantum: int, io: nat)
      ensures Valid() && fresh(Repr) && model == Init(quantum, io) && end == 0 && sems == map[]
      ensures model.quantum == quantum && model.count == 0 && model.current == None && model.tcb == map[]
      ensures model.ready == [] && model.finished == []
      ensures |model.waiting| == io && forall d :: 0 <= d < io ==> model.waiting[d] == []
    {
      hide PrioQueue.Valid, LinkedList.Valid;
      var qs, all := CreateQueues(io + 2);
      this.quantum := quantum;
      ready, finished, waiting := qs[0], qs[1], qs[2..];
      thread, count, end, threads := None, 0, 0, map[];
      model, sems, queues := Init(quantum, io), map[], qs;
      new;
      Repr := {this} + all;
    }

    /** `so_init`. It fails when there is a scheduler already, for too many devices, and for no quantum. */
    static method SoInit(existing: Option<Scheduler>, quantum: nat, io: nat)
      returns (ret: int, scheduler: Option<Scheduler>)
      ensures ret == if existing.Some? || MAX_EVENTS < io || quantum == 0 then -1 else 0
      ensures ret == -1 ==> scheduler == existing
      ensures ret == 0 ==> scheduler.Some? && fresh(scheduler.value) && fresh(scheduler.value.Repr)
      ensures ret == 0 ==> var s := scheduler.value;
        s.Valid() && s.model.quantum == quantum && s.model.count == 0 && s.model.current == None && s.end == 0
        && |s.model.waiting| == io && s.model == Init(quantum, io)
    {
      if existing.Some? || MAX_EVENTS < io || quantum == 0 {
        return -1, existing;
      }
      var s := new Scheduler(quantum, io);
      return 0, Some(s);
    }

    /** Pushes a thread on one queue, all others and all records staying. */
    method PushOn(ghost i: nat, q: PrioQueue<Tid>, t: Tid)
      requires Apart() && RecordsAre(model.tcb, sems) && i < |queues| && q == queues[i]
      modifies q.Repr, this`Repr
      ensures Apart() && fresh(Repr - old(Repr)) && q.contents == Push(old(q.contents), t)
      ensures forall j :: 0 <= j < |queues| && j != i ==> queues[j].contents == old(queues[j].contents)
      ensures RecordsAre(model.tcb, sems)
    {
      hide PrioQueue.Valid, LinkedList.Valid, Apart, RecordsAre;
      Outside(i);
      PushApart(i, q, t);
    }

    lemma Outside(i: nat)
      requires Apart() && i < |queues|
      ensures this !in queues[i].Repr && forall t :: t in threads ==> threads[t] !in queues[i].Repr
    {
    }

    method PushApart(ghost i: nat, q: PrioQueue<Tid>, t: Tid)
      requires Apart() && i < |queues| && q == queues[i]
      modifies q.Repr, this`Repr
      ensures Apart() && fresh(Repr - old(Repr)) && q.contents == Push(old(q.contents), t)
      ensures forall j :: 0 <= j < |queues| && j != i ==> queues[j].contents == old(queues[j].contents)
    {
      hide PrioQueue.Valid, LinkedList.Valid, PushBy, Push;
      q.Push(t);
      PushByPriority(old(q.contents), t);
      Repr := Repr + q.Repr;
    }

    /** Assignments to the fields `state` and `time_quantum` of a thread. */
    method SetRecord(t: Tid, status: Status, left: int)
      requires Valid() && t in threads
      modifies Repr
      ensures Valid() && Repr == old(Repr) && threads == old(threads) && sems == old(sems) && end == old(end)
      ensures model == old(model).(tcb := old(model.tcb)[t := Tcb(status, left)])
    {
      hide PrioQueue.Valid, LinkedList.Valid, Closed, Apart, QueuesAre, RecordsAre;
      RecordFacts(t);
      RecordKeepsClosed(model, t, Tcb(status, left));
      WriteRecord(t, threads[t], status, left, threads[t].running);
      model := model.(tcb := model.tcb[t := Tcb(status, left)]);
    }

    /** The assignments themselves: nothing but the one record changes. */
    method WriteRecord(t: Tid, r: ThreadRecord, status: Status, left: int, running: nat)
      requires Apart() && Modelled() && t in threads && threads[t] == r
      modifies r
      ensures Apart() && QueuesAre(model.ready, model.finished, model.waiting)
      ensures RecordsAre(model.tcb[t := Tcb(status, left)], sems[t := running])
    {
      hide PrioQueue.Valid, LinkedList.Valid, Apart;
      RecordShape();
      WriteFields(r, status, left, running);
    }

    method WriteFields(r: ThreadRecord, status: Status, left: int, running: nat)
      requires Apart() && r in threads.Values
      modifies r
      ensures Apart() && r.status == status && r.left == left && r.running == running
      ensures forall i :: 0 <= i < |queues| ==> queues[i].contents == old(queues[i].contents)
    {
      hide PrioQueue.Valid, LinkedList.Valid;
      r.status := status;
      r.left := left;
      r.running := running;
    }

    lemma RecordFacts(t: Tid)
      requires Apart() && Modelled() && t in threads
      ensures this in Repr && threads[t] in Repr && t in model.tcb && t in sems
      ensures sems[t] == threads[t].running && model.tcb[t] == Tcb(threads[t].status, threads[t].left)
      ensures sems[t := threads[t].running] == sems && model.tcb[t := model.tcb[t]] == model.tcb
    {
      hide PrioQueue.Valid, LinkedList.Valid;
    }

    lemma RecordShape()
      requires Apart()
      ensures this in Repr && |queues| == |waiting| + 2
      ensures forall t :: t in threads ==> threads[t] in Repr
      ensures forall t, u :: t in threads && u in threads && t != u ==> threads[t] != threads[u]
    {
    }

    lemma Shape()
      requires Apart()
      ensures this in Repr && |queues| == |waiting| + 2 && queues[0] == ready && queues[1] == finished
      ensures forall d :: 0 <= d < |waiting| ==> queues[d + 2] == waiting[d]
      ensures forall i :: 0 <= i < |queues| ==> queues[i] in Repr && queues[i].Repr <= Repr
      ensures forall i :: 0 <= i < |queues| ==> this !in queues[i].Repr
      ensures forall t :: t in threads ==> threads[t] in Repr
      ensures forall t, u :: t in threads && u in threads && t != u ==> threads[t] != threads[u]
    {
    }

    /** The changes of the value that keep it closed. */
    static lemma PushKeepsClosed(s: Sched, t: Tid)
      requires Closed(s) && t in s.tcb
      ensures Closed(s.(ready := Push(s.ready, t))) && Closed(s.(finished := Push(s.finished, t)))
      ensures forall d :: 0 <= d < |s.waiting| ==> Closed(s.(waiting := s.waiting[d := Push(s.waiting[d], t)]))
      ensures Closed(s.(current := Some(t)))
    {
      hide Push;
      PushContents(s.ready, t);
      PushContents(s.finished, t);
      forall d | 0 <= d < |s.waiting| ensures Closed(s.(waiting := s.waiting[d := Push(s.waiting[d], t)])) {
        PushContents(s.waiting[d], t);
      }
    }

    static lemma PopKeepsClosed(s: Sched)
      requires Closed(s)
      ensures s.ready != [] ==> s.ready[0] in s.tcb && Closed(s.(ready := s.ready[1..]))
      ensures forall d :: 0 <= d < |s.waiting| && s.waiting[d] != [] ==>
        s.waiting[d][0] in s.tcb && Closed(s.(waiting := s.waiting[d := s.waiting[d][1..]]))
    {
      if s.ready != [] {
        assert s.ready[0] in s.ready;
      }
      forall d | 0 <= d < |s.waiting| && s.waiting[d] != []
        ensures s.waiting[d][0] in s.tcb && Closed(s.(waiting := s.waiting[d := s.waiting[d][1..]]))
      {
        assert s.waiting[d][0] in s.waiting[d];
      }
    }

    static lemma RecordKeepsClosed(s: Sched, t: Tid, b: Tcb)
      requires Closed(s) && t in s.tcb
      ensures Closed(s.(tcb := s.tcb[t := b]))
    {
    }

    /** `sem_post` on a thread's semaphore. */
    method Post(t: Tid)
      requires Valid() && t in threads
      modifies Repr
      ensures Valid() && Repr == old(Repr) && threads == old(threads) && model == old(model) && end == old(end)
      ensures sems == old(sems)[t := old(sems)[t] + 1]
    {
      hide PrioQueue.Valid, LinkedList.Valid, Closed, Apart, QueuesAre, RecordsAre;
      RecordFacts(t);
      WriteRecord(t, threads[t], threads[t].status, threads[t].left, threads[t].running + 1);
      sems := sems[t := sems[t] + 1];
    }

    method SetCurrent(t: Tid)
      requires Valid() && t in threads
      modifies this
      ensures Valid() && Repr == old(Repr) && threads == old(threads) && sems == old(sems) && end == old(end)
      ensures model == old(model).(current := Some(t))
    {
      hide PrioQueue.Valid, LinkedList.Valid, Push, Apart, Closed, RecordsAre;
      Shape();
      Keys();
      PushKeepsClosed(model, t);
      thread := Some(t);
      model := model.(current := Some(t));
    }

    method PushReady(t: Tid)
      requires Valid() && t in threads
      modifies Repr
      ensures Valid() && fresh(Repr - old(Repr)) && threads == old(threads) && sems == old(sems) && end == old(end)
      ensures model == old(model).(ready := Push(old(model.ready), t))
    {
      hide PrioQueue.Valid, LinkedList.Valid, Push, Apart, Closed, RecordsAre;
      Shape();
      Keys();
      PushKeepsClosed(model, t);
      PushOn(0, ready, t);
      Shape();
      model := model.(ready := Push(model.ready, t));
    }

    method PushFinished(t: Tid)
      requires Valid() && t in threads
      modifies Repr
      ensures Valid() && fresh(Repr - old(Repr)) && threads == old(threads) && sems == old(sems) && end == old(end)
      ensures model == old(model).(finished := Push(old(model.finished), t))
    {
      hide PrioQueue.Valid, LinkedList.Valid, Push, Apart, Closed, RecordsAre;
      Shape();
      Keys();
      PushKeepsClosed(model, t);
      PushOn(1, finished, t);
      Shape();
      model := model.(finished := Push(model.finished, t));
    }

    method PushWaiting(io: nat, t: Tid)
      requires Valid() && t in threads && io < |waiting|
      modifies Repr
      ensures Valid() && fresh(Repr - old(Repr)) && threads == old(threads) && sems == old(sems) && end == old(end)
      ensures |old(model.waiting)| == |waiting|
      ensures model == old(model).(waiting := old(model.waiting)[io := Push(old(model.waiting)[io], t)])
    {
      hide PrioQueue.Valid, LinkedList.Valid, Push, Apart, Closed, RecordsAre;
      Shape();
      Keys();
      PushKeepsClosed(model, t);
      PushOn(io + 2, waiting[io], t);
      Shape();
      model := model.(waiting := model.waiting[io := Push(model.waiting[io], t)]);
    }

    /** Pops a queue, all others and all records staying. */
    method PopFrom(ghost i: nat, q: PrioQueue<Tid>) returns (t: Option<Tid>)
      requires Apart() && RecordsAre(model.tcb, sems) && i < |queues| && q == queues[i]
      modifies q.Repr
      ensures Apart()
      ensures old(q.contents) == [] ==> t == None && q.contents == []
      ensures old(q.contents) != [] ==> t == Some(old(q.contents)[0]) && q.contents == old(q.contents)[1..]
      ensures forall j :: 0 <= j < |queues| && j != i ==> queues[j].contents == old(queues[j].contents)
      ensures RecordsAre(model.tcb, sems)
    {
      hide PrioQueue.Valid, LinkedList.Valid;
      t := q.Pop();
    }

    method PopReady() returns (t: Tid)
      requires Valid() && model.ready != []
      modifies Repr
      ensures Valid() && Repr == old(Repr) && threads == old(threads) && sems == old(sems) && end == old(end)
      ensures t == old(model.ready)[0] && t in threads
      ensures model == old(model).(ready := old(model.ready)[1..])
    {
      hide PrioQueue.Valid, LinkedList.Valid, Push, Apart, Closed, RecordsAre;
      Shape();
      Keys();
      PopKeepsClosed(model);
      var popped := PopFrom(0, ready);
      Shape();
      t := popped.value;
      model := model.(ready := model.ready[1..]);
    }

    /** `mark_as_ready`. */
    method MarkAsReady(t: Tid)
      requires Valid() && t in threads
      modifies Repr
      ensures Valid() && fresh(Repr - old(Repr)) && threads == old(threads) && sems == old(sems) && end == old(end)
      ensures old(t in model.tcb && Closed(model)) && model == Scheduling.MarkAsReady(old(model), t)
    {
      hide Valid, Push, Closed;
      Facts(t);
      SetRecord(t, Ready, threads[t].left);
      PushReady(t);
    }

    lemma Facts(t: Tid)
      requires Valid() && t in threads
      ensures t in model.tcb && t in sems && Closed(model) && threads[t] in Repr && this in Repr
      ensures model.quantum == quantum
      ensures model.tcb[t] == Tcb(threads[t].status, threads[t].left)
    {
    }

    /** `plan_next`. */
    method PlanNext()
      requires Valid() && model.ready != []
      modifies Repr
      ensures Valid() && fresh(Repr - old(Repr)) && threads == old(threads) && end == old(end)
      ensures old(Closed(model)) && model == Scheduling.PlanNext(old(model))
      ensures model.current.value in old(sems)
      ensures sems == old(sems)[model.current.value := old(sems)[model.current.value] + 1]
    {
      hide Valid, Closed;
      CurrentFacts();
      var t := PopReady();
      Facts(t);
      SetCurrent(t);
      SetRecord(t, Running, quantum);
      Post(t);
    }

    /** A state with one post more on the semaphore of `t`. */
    ghost predicate OnePost(before: map<Tid, nat>, t: Tid)
      reads this
    {
      t in before && sems == before[t := before[t] + 1]
    }

    /** `sem_post` on `end`. */
    method PostEnd()
      requires Valid()
      modifies this`end
      ensures Valid() && end == old(end) + 1
    {
      hide PrioQueue.Valid, LinkedList.Valid, Apart, Closed;
      end := end + 1;
    }

    /** The branch of `scheduler_check` with nothing ready. */
    method CheckAlone(c: Tid)
      requires Valid() && model.ready == [] && thread == Some(c) && c in threads
      modifies Repr
      ensures Valid() && Repr == old(Repr) && threads == old(threads) && model == old(model) && OnePost(old(sems), c)
      ensures end == old(end) + if old(model.tcb[c].status) == Terminated then 1 else 0
    {
      hide Valid, Closed;
      Facts(c);
      if threads[c].status == Terminated {
        PostEnd();
      }
      Post(c);
    }

    /** The branches of `scheduler_check` that put the current thread into a queue first. */
    method Preempt(c: Tid)
      requires Valid() && model.ready != [] && c in threads
      modifies Repr
      ensures Valid() && fresh(Repr - old(Repr)) && threads == old(threads) && end == old(end)
      ensures old(Closed(model) && c in model.tcb)
      ensures model == Scheduling.PlanNext(Scheduling.MarkAsReady(old(model), c))
      ensures model.current.Some? && OnePost(old(sems), model.current.value)
    {
      hide Valid, Push, Closed;
      Facts(c);
      PushContents(model.ready, c);
      MarkAsReady(c);
      PlanNext();
    }

    method RetireAndPlan(c: Tid)
      requires Valid() && model.ready != [] && c in threads
      modifies Repr
      ensures Valid() && fresh(Repr - old(Repr)) && threads == old(threads) && end == old(end)
      ensures old(Closed(model) && c in model.tcb)
      ensures model == Scheduling.PlanNext(Scheduling.Retire(old(model), c))
      ensures model.current.Some? && OnePost(old(sems), model.current.value)
    {
      hide Valid, Push, Closed;
      Facts(c);
      PushFinished(c);
      PlanNext();
    }

    /** `scheduler_check`. */
    method SchedulerCheck()
      requires Valid() && Checkable(model)
      modifies Repr
      ensures Valid() && fresh(Repr - old(Repr)) && threads == old(threads)
      ensures model == Check(old(model)).next
      ensures model.current.Some? && OnePost(old(sems), model.current.value)
      ensures end == old(end) + if Check(old(model)).stop then 1 else 0
    {
      hide Valid, Push, Slot, Closed, Scheduling.PlanNext, Scheduling.MarkAsReady, Retire;
      var current := thread;
      CurrentFacts();
      var n := ReadySize();
      if n == 0 {
        CheckAlone(current.value);
        return;
      }
      if current == None || threads[current.value].status == Waiting {
        PlanNext();
        return;
      }
      var c := current.value;
      if threads[c].status == Terminated {
        RetireAndPlan(c);
        return;
      }
      var top := ReadyTop();
      if c.priority < top.priority {
        Preempt(c);
        return;
      }
      if threads[c].left == 0 {
        if c.priority == top.priority {
          Preempt(c);
          return;
        }
        SetRecord(c, threads[c].status, quantum);
      }
      Post(c);
    }

    lemma CurrentFacts()
      requires Valid()
      ensures Closed(model) && model.current == thread && model.quantum == quantum && this in Repr
      ensures thread.Some? ==> thread.value in threads && thread.value in model.tcb && thread.value in sems
      ensures thread.Some? ==> threads[thread.value] in Repr
      ensures thread.Some? ==> model.tcb[thread.value] == Tcb(threads[thread.value].status, threads[thread.value].left)
    {
    }

    method ReadySize() returns (n: nat)
      requires Valid()
      ensures n == |model.ready|
    {
      n := ready.Size();
    }

    method ReadyTop() returns (t: Tid)
      requires Valid() && model.ready != []
      ensures t == model.ready[0]
    {
      t := ready.Top();
    }

    /** `so_exec` up to its `sem_wait`, which is on the semaphore of `own`. */
    method SoExec() returns (own: Tid)
      requires Valid() && model.current.Some?
      modifies Repr
      ensures Valid() && fresh(Repr - old(Repr)) && threads == old(threads)
      ensures Some(own) == old(model.current)
      ensures old(Closed(model)) && model == Decide(old(model), Exec).next
      ensures model.current.Some? && OnePost(old(sems), model.current.value)
      ensures end == old(end) + if Decide(old(model), Exec).stop then 1 else 0
    {
      hide Valid, Closed, Check;
      CurrentFacts();
      own := thread.value;
      SetRecord(own, threads[own].status, threads[own].left - 1);
      CurrentFacts();
      SchedulerCheck();
    }

    /** `so_wait` up to its `sem_wait`. */
    method SoWait(io: Device) returns (ret: int)
      requires Valid() && model.current.Some?
      modifies Repr
      ensures Valid() && fresh(Repr - old(Repr)) && threads == old(threads) && old(Closed(model))
      ensures |old(model).waiting| <= io ==> ret == -1 && model == old(model) && sems == old(sems) && end == old(end)
      ensures io < |old(model).waiting| ==> ret == 0
      ensures io < |old(model).waiting| ==> model == Decide(old(model), Wait(io)).next
      ensures io < |old(model).waiting| ==> model.current.Some? && OnePost(old(sems), model.current.value)
      ensures io < |old(model).waiting| ==> end == old(end) + if Decide(old(model), Wait(io)).stop then 1 else 0
    {
      hide Valid, Closed, Check, Push, Tick;
      CurrentFacts();
      if WaitingCount() <= io {
        return -1;
      }
      var c := thread.value;
      SetRecord(c, Waiting, threads[c].left);
      CurrentFacts();
      PushWaiting(io, c);
      var own := SoExec();
      return 0;
    }

    function WaitingCount(): (n: nat)
      requires Valid()
      reads this, Repr
      ensures n == |model.waiting|
    {
      |waiting|
    }

    /** One round of the loop of `so_signal`. */
    method WakeFrom(io: nat) returns (woke: bool)
      requires Valid() && io < |model.waiting|
      modifies Repr
      ensures Valid() && fresh(Repr - old(Repr)) && threads == old(threads) && sems == old(sems) && end == old(end)
      ensures old(Closed(model)) && (woke <==> old(model).waiting[io] != [])
      ensures model == if woke then WakeOne(old(model), io) else old(model)
    {
      hide Valid, Closed, Push, Scheduling.MarkAsReady;
      CurrentFacts();
      var t := PopWaiting(io);
      woke := t.Some?;
      if woke {
        MarkAsReady(t.value);
      }
    }

    method PopWaiting(io: nat) returns (t: Option<Tid>)
      requires Valid() && io < |model.waiting|
      modifies Repr
      ensures Valid() && Repr == old(Repr) && threads == old(threads) && sems == old(sems) && end == old(end)
      ensures old(model).waiting[io] == [] ==> t == None && model == old(model)
      ensures old(model).waiting[io] != [] ==> t == Some(old(model).waiting[io][0]) && t.value in threads
      ensures old(model).waiting[io] != [] ==>
        model == old(model).(waiting := old(model).waiting[io := old(model).waiting[io][1..]])
    {
      hide PrioQueue.Valid, LinkedList.Valid, Push, Apart, Closed, RecordsAre;
      Shape();
      Keys();
      PopKeepsClosed(model);
      t := PopFrom(io + 2, waiting[io]);
      Shape();
      if t.Some? {
        model := model.(waiting := model.waiting[io := model.waiting[io][1..]]);
      }
    }

    /** `so_signal` up to its `sem_wait`: it returns how many threads waited for the device. */
    method SoSignal(io: Device) returns (ret: int)
      requires Valid() && model.current.Some?
      modifies Repr
      ensures Valid() && fresh(Repr - old(Repr)) && threads == old(threads) && old(Closed(model))
      ensures |old(model).waiting| <= io ==> ret == -1 && model == old(model) && sems == old(sems) && end == old(end)
      ensures io < |old(model).waiting| ==> ret == |old(model).waiting[io]|
      ensures io < |old(model).waiting| ==> model == Decide(old(model), Signal(io)).next
      ensures io < |old(model).waiting| ==> model.current.Some? && OnePost(old(sems), model.current.value)
      ensures io < |old(model).waiting| ==> end == old(end) + if Decide(old(model), Signal(io)).stop then 1 else 0
    {
      hide Valid, Closed, Check, Push, Tick, WakeOne;
      CurrentFacts();
      if WaitingCount() <= io {
        return -1;
      }
      var cnt := 0;
      var more := true;
      while more
        invariant Valid() && fresh(Repr - old(Repr)) && threads == old(threads) && sems == old(sems) && end == old(end)
        invariant Closed(model) && |model.waiting| == |old(model).waiting| && model.current == old(model.current)
        invariant cnt + |model.waiting[io]| == |old(model).waiting[io]|
        invariant WakeAll(model, io) == WakeAll(old(model), io)
        invariant !more ==> model.waiting[io] == []
        decreases more, |model.waiting[io]|
      {
        WakeAllUnfolds(model, io);
        more := WakeFrom(io);
        CurrentFacts();
        if more {
          cnt := cnt + 1;
        }
      }
      WakeAllUnfolds(model, io);
      var own := SoExec();
      return cnt;
    }

    /** The part of `so_fork` that creates the thread. */
    method CreateRecord(handler: Handler, priority: nat) returns (child: Tid)
      requires Valid()
      modifies Repr
      ensures Valid() && fresh(Repr - old(Repr)) && end == old(end) && old(Closed(model))
      ensures child == NewTid(old(model), priority) && model == Create(old(model), priority)
      ensures child in threads && threads[child].handler == handler && sems == old(sems)[child := 0]
      ensures forall t :: t in old(threads) ==> t in threads && threads[t] == old(threads)[t]
    {
      hide Valid, Closed;
      CurrentFacts();
      var serial := CountOne();
      child := Tid(serial, priority);
      AddRecord(handler, child);
    }

    /** `++scheduler->no_threads`. */
    method CountOne() returns (serial: nat)
      requires Valid()
      modifies this
      ensures Valid() && Repr == old(Repr) && threads == old(threads) && sems == old(sems) && end == old(end)
      ensures serial == old(model.count) && model == old(model).(count := serial + 1)
      ensures forall t :: t in model.tcb ==> t.serial < serial
    {
      hide PrioQueue.Valid, LinkedList.Valid;
      serial := count;
      count := count + 1;
      model := model.(count := count);
    }

    /** The new record, in the object and in the value. */
    method AddRecord(handler: Handler, child: Tid)
      requires Valid() && child !in model.tcb && child.serial < model.count
      modifies this
      ensures Valid() && fresh(Repr - old(Repr)) && end == old(end)
      ensures model == old(model).(tcb := old(model.tcb)[child := Tcb(Ready, old(model.quantum))])
      ensures child in threads && threads[child].handler == handler && sems == old(sems)[child := 0]
      ensures forall t :: t in old(threads) ==> t in threads && threads[t] == old(threads)[t]
    {
      hide PrioQueue.Valid, LinkedList.Valid, Closed, Apart, QueuesAre, RecordsAre;
      NewRecordKeepsClosed(model, child, Tcb(Ready, quantum));
      Keys();
      var record := NewRecord(handler, child);
      sems := sems[child := 0];
      model := model.(tcb := model.tcb[child := Tcb(Ready, quantum)]);
    }

    lemma Keys()
      requires Apart() && Modelled()
      ensures model.tcb.Keys == threads.Keys == sems.Keys
    {
      hide PrioQueue.Valid, LinkedList.Valid;
    }

    method NewRecord(handler: Handler, child: Tid) returns (record: ThreadRecord)
      requires Apart() && Modelled() && child !in threads
      modifies this`threads, this`Repr
      ensures Apart() && fresh(record) && Repr == old(Repr) + {record} && threads == old(threads)[child := record]
      ensures record.handler == handler && QueuesAre(model.ready, model.finished, model.waiting)
      ensures RecordsAre(model.tcb[child := Tcb(Ready, quantum)], sems[child := 0])
    {
      hide PrioQueue.Valid, LinkedList.Valid, Apart;
      RecordShape();
      record := Allocate(handler, child);
    }

    /** The `calloc` of a thread: all other records and all queues stay. */
    method Allocate(handler: Handler, child: Tid) returns (record: ThreadRecord)
      requires Apart() && child !in threads
      modifies this`threads, this`Repr
      ensures Apart() && fresh(record) && Repr == old(Repr) + {record} && threads == old(threads)[child := record]
      ensures record.handler == handler && record.status == Ready && record.left == quantum && record.running == 0
      ensures forall i :: 0 <= i < |queues| ==> queues[i].contents == old(queues[i].contents)
    {
      hide PrioQueue.Valid, LinkedList.Valid;
      record := new ThreadRecord(handler, quantum);
      threads := threads[child := record];
      Repr := Repr + {record};
    }

    static lemma NewRecordKeepsClosed(s: Sched, t: Tid, b: Tcb)
      requires Closed(s) && t !in s.tcb && t.serial < s.count
      ensures Closed(s.(tcb := s.tcb[t := b]))
    {
    }

    /** `so_fork` up to its `sem_wait`, or to its return when the main thread calls it. */
    method SoFork(func: Option<Handler>, priority: nat) returns (child: Option<Tid>)
      requires Valid()
      modifies Repr
      ensures Valid() && fresh(Repr - old(Repr)) && old(Closed(model))
      ensures child.Some? <==> func.Some? && priority <= MAX_PRIORITY
      ensures child == None ==>
        model == old(model) && threads == old(threads) && sems == old(sems) && end == old(end)
      ensures child.Some? ==> child.value == NewTid(old(model), priority) && child.value in threads
      ensures child.Some? ==> threads[child.value].handler == func.value
      ensures child.Some? ==> model.current.Some? && OnePost(old(sems)[child.value := 0], model.current.value)
      ensures child.Some? && old(model).current.Some? ==>
        model == Decide(old(model), Fork(priority, Done)).next
        && end == old(end) + if Decide(old(model), Fork(priority, Done)).stop then 1 else 0
      ensures child.Some? && old(model).current.None? ==>
        model == Check(MainForked(old(model), priority)).next && end == old(end)
      ensures forall q, io: nat, body :: child.Some? && old(model) == Init(q, io) ==>
        model == Boot(q, io, priority, body).s
    {
      hide Valid, Closed, Check, Push, Tick, Create, Scheduling.MarkAsReady;
      CurrentFacts();
      if func == None || MAX_PRIORITY < priority {
        return None;
      }
      var t := CreateRecord(func.value, priority);
      MainForkedCheckable(old(model), priority);
      MarkAsReady(t);
      CurrentFacts();
      if thread.Some? {
        var own := SoExec();
      } else {
        SchedulerCheck();
      }
      return Some(t);
    }

    /** The state in which `so_fork` has `scheduler_check` run when the main thread calls it. */
    static ghost function MainForked(s: Sched, priority: nat): (u: Sched)
      requires Closed(s)
      ensures Checkable(u)
    {
      PushContents(s.ready, NewTid(s, priority));
      Scheduling.MarkAsReady(Create(s, priority), NewTid(s, priority))
    }

    static lemma MainForkedCheckable(s: Sched, priority: nat)
      requires Closed(s)
      ensures Checkable(MainForked(s, priority)) && MainForked(s, priority).current == s.current
      ensures MainForked(s, priority).ready != []
      ensures s.current.None? ==> !Check(MainForked(s, priority)).stop
    {
      PushContents(s.ready, NewTid(s, priority));
    }

    /** `start_thread` from the return of the handler to `pthread_exit`. */
    method FinishThread(t: Tid)
      requires Valid() && t in threads && model.current.Some?
      modifies Repr
      ensures Valid() && fresh(Repr - old(Repr)) && threads == old(threads)
      ensures old(Closed(model) && t in model.tcb) && model == Check(Terminate(old(model), t)).next
      ensures model.current.Some? && OnePost(old(sems), model.current.value)
      ensures end == old(end) + if Check(Terminate(old(model), t)).stop then 1 else 0
    {
      hide Valid, Closed, Check;
      CurrentFacts();
      Facts(t);
      SetRecord(t, Terminated, threads[t].left);
      CurrentFacts();
      SchedulerCheck();
    }

    /** The `sem_wait` of a thread that does not block, or does not block any more: it takes one post. */
    method SemWait(t: Tid)
      requires Valid() && t in threads && 0 < threads[t].running
      modifies Repr
      ensures Valid() && Repr == old(Repr) && threads == old(threads) && model == old(model) && end == old(end)
      ensures old(t in sems && 0 < sems[t]) && sems == old(sems)[t := old(sems)[t] - 1]
    {
      hide PrioQueue.Valid, LinkedList.Valid, Closed, Apart, QueuesAre, RecordsAre;
      RecordFacts(t);
      WriteRecord(t, threads[t], threads[t].status, threads[t].left, threads[t].running - 1);
      sems := sems[t := sems[t] - 1];
    }

    /** The `sem_wait` of `so_end`, when it does not block: it takes one post of `end`. */
    method WaitEnd()
      requires Valid() && 0 < end
      modifies this`end
      ensures Valid() && end == old(end) - 1
    {
      hide PrioQueue.Valid, LinkedList.Valid, Apart, Closed;
      end := end - 1;
    }

    static lemma FlattenFrom(w: seq<seq<Tid>>, d: nat)
      requires d < |w|
      ensures Flatten(w[d..]) == w[d] + Flatten(w[d + 1..])
    {
      assert w[d..][1..] == w[d + 1..];
    }

    static lemma FlattenNone(w: seq<seq<Tid>>)
      ensures Flatten(w[|w|..]) == []
    {
    }

    /** The rest of `so_end`. */
    method Reclaim() returns (freed: seq<Tid>)
      requires Valid()
      modifies Repr - {this}
      ensures InReclaimOrder(old(model), freed)
    {
      hide PrioQueue.Valid, LinkedList.Valid, Flatten, Closed;
      assert model.waiting[0..] == model.waiting;
      freed := if thread.Some? then [thread.value] else [];
      var some := ready.Free();
      freed := freed + some;
      some := finished.Free();
      freed := freed + some;
      var d := 0;
      while d < |waiting|
        invariant d <= |waiting| == |model.waiting|
        invariant forall j :: d + 2 <= j < |queues| ==>
          queues[j].Valid() && queues[j].Repr == old(queues[j].Repr) && queues[j].contents == old(queues[j].contents)
        invariant freed + Flatten(model.waiting[d..]) == ReclaimOrder(model)
      {
        FlattenFrom(model.waiting, d);
        some := waiting[d].Free();
        freed := freed + some;
        d := d + 1;
      }
      FlattenNone(model.waiting);
      ReclaimOrderByIndex(model, freed);
    }

    /** `so_end`, when it need not block on `end`, or need not any more: the threads in the order in
        which they are joined and freed. */
    method SoEnd() returns (freed: seq<Tid>)
      requires Valid() && (count != 0 ==> 0 < end)
      modifies Repr
      ensures InReclaimOrder(old(model), freed)
      ensures end == old(end) - if old(count) != 0 then 1 else 0
    {
      hide Valid;
      InRepr();
      if count != 0 {
        WaitEnd();
      }
      freed := Reclaim();
    }

    lemma InRepr()
      requires Valid()
      ensures this in Repr
    {
    }
  }
}
