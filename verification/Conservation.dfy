/** What every scheduling step keeps: no thread is lost, duplicated or mislabelled, the queues stay
    sorted and the running thread is never outranked by a ready one. */
module Conservation {
  import opened StableOrder
  import opened Scheduling

  /** The threads that are in some queue, with multiplicities. */
  ghost function Queued(s: Sched): multiset<Tid> {
    multiset(s.ready) + multiset(s.finished) + multiset(Flatten(s.waiting))
  }

  /** Each forked thread is in exactly one place: the running one, ready, finished, or waiting. */
  ghost predicate Partition(s: Sched) {
    s.current.Some? && Queued(s) + multiset{s.current.value} == multiset(s.tcb.Keys)
  }

  /** Statuses agree with queues, queues are sorted, and `no_threads` counts the threads. */
  ghost predicate Tidy(s: Sched) {
    && Closed(s)
    && 1 <= s.quantum
    && |s.tcb| == s.count
    && (forall t :: t in s.tcb ==> t.priority <= MAX_PRIORITY)
    && (forall t :: t in s.ready ==> s.tcb[t].status == Ready)
    && (forall t :: t in s.finished ==> s.tcb[t].status == Terminated)
    && (forall d :: 0 <= d < |s.waiting| ==> forall t :: t in s.waiting[d] ==> s.tcb[t].status == Waiting)
    && Sorted(s.ready) && Sorted(s.finished)
    && (forall d :: 0 <= d < |s.waiting| ==> Sorted(s.waiting[d]))
  }

  /** What holds whenever a thread has been handed the processor. The current thread is terminated
      only when it was the last one that could run. */
  ghost predicate Sane(s: Sched) {
    && Tidy(s)
    && Partition(s)
    && (s.ready != [] ==> s.ready[0].priority <= s.current.value.priority)
    && (s.tcb[s.current.value].status == Running
        || (s.tcb[s.current.value].status == Terminated && s.ready == []))
  }

  /** What holds when `scheduler_check` is called. A waiting caller is already in a queue. */
  ghost predicate Undecided(s: Sched) {
    && Tidy(s)
    && if s.current.None? || s.tcb[s.current.value].status == Waiting
       then s.ready != [] && Queued(s) == multiset(s.tcb.Keys)
       else Partition(s) && s.tcb[s.current.value].status in {Running, Terminated}
  }

  lemma FlattenUpdate(w: seq<seq<Tid>>, d: nat, q: seq<Tid>)
    requires d < |w|
    ensures multiset(Flatten(w[d := q])) + multiset(w[d]) == multiset(Flatten(w)) + multiset(q)
  {
    forall x: Tid
      ensures (multiset(Flatten(w[d := q])) + multiset(w[d]))[x] == (multiset(Flatten(w)) + multiset(q))[x]
    {
      FlattenUpdateCount(w, d, q, x);
    }
  }

  lemma {:induction false} FlattenUpdateCount(w: seq<seq<Tid>>, d: nat, q: seq<Tid>, x: Tid)
    requires d < |w|
    ensures multiset(Flatten(w[d := q]))[x] + multiset(w[d])[x] == multiset(Flatten(w))[x] + multiset(q)[x]
  {
    if d == 0 {
      assert w[0 := q][1..] == w[1..];
    } else {
      FlattenUpdateCount(w[1..], d - 1, q, x);
      assert w[d := q][1..] == w[1..][d - 1 := q];
    }
  }

  lemma Cancel(a: multiset<Tid>, b: multiset<Tid>, c: multiset<Tid>)
    requires a + c == b + c
    ensures a == b
  {
    forall x: Tid ensures a[x] == b[x] {
      assert (a + c)[x] == (b + c)[x];
    }
  }

  lemma {:induction false} InFlatten(w: seq<seq<Tid>>, d: nat, t: Tid)
    requires d < |w| && t in w[d]
    ensures t in Flatten(w)
  {
    if d != 0 {
      InFlatten(w[1..], d - 1, t);
    }
  }

  lemma {:induction false} FromFlatten(w: seq<seq<Tid>>, t: Tid) returns (d: nat)
    requires t in Flatten(w)
    ensures d < |w| && t in w[d]
  {
    if t in w[0] {
      d := 0;
    } else {
      d := FromFlatten(w[1..], t);
      d := d + 1;
    }
  }

  lemma MarkAsReadyMoves(s: Sched, t: Tid)
    requires Closed(s) && t in s.tcb
    ensures Queued(MarkAsReady(s, t)) == Queued(s) + multiset{t}
  {
    PushContents(s.ready, t);
  }

  lemma PlanNextMoves(s: Sched)
    requires Closed(s) && s.ready != []
    ensures var s' := PlanNext(s);
            Queued(s') + multiset{s'.current.value} == Queued(s)
  {
    assert s.ready == [s.ready[0]] + s.ready[1..];
  }

  lemma RetireMoves(s: Sched, t: Tid)
    requires Closed(s) && t in s.tcb
    ensures Queued(Retire(s, t)) == Queued(s) + multiset{t}
  {
    PushContents(s.finished, t);
  }

  lemma EnrolMoves(s: Sched, io: nat)
    requires Closed(s) && s.current.Some? && io < |s.waiting|
    ensures Queued(Enrol(s, io)) == Queued(s) + multiset{s.current.value}
  {
    var c, q := s.current.value, s.waiting[io];
    PushContents(q, c);
    FlattenUpdate(s.waiting, io, Push(q, c));
    Cancel(multiset(Flatten(s.waiting[io := Push(q, c)])), multiset(Flatten(s.waiting)) + multiset{c}, multiset(q));
  }

  lemma PopFlatten(w: seq<seq<Tid>>, d: nat)
    requires d < |w| && w[d] != []
    ensures multiset(Flatten(w[d := w[d][1..]])) + multiset{w[d][0]} == multiset(Flatten(w))
  {
    hide Flatten;
    var q := w[d];
    FlattenUpdate(w, d, q[1..]);
    assert q == [q[0]] + q[1..];
    Cancel(multiset(Flatten(w[d := q[1..]])) + multiset{q[0]}, multiset(Flatten(w)), multiset(q[1..]));
  }

  lemma WakeOneMoves(s: Sched, io: nat)
    requires Closed(s) && io < |s.waiting| && s.waiting[io] != []
    ensures Queued(WakeOne(s, io)) == Queued(s)
  {
    hide Flatten, MarkAsReady;
    var q := s.waiting[io];
    assert q[0] in q;
    PopFlatten(s.waiting, io);
    MarkAsReadyMoves(s.(waiting := s.waiting[io := q[1..]]), q[0]);
  }

  lemma NotQueued(s: Sched, t: Tid)
    requires Queued(s)[t] == 0
    ensures t !in s.ready && t !in s.finished
    ensures forall d :: 0 <= d < |s.waiting| ==> t !in s.waiting[d]
  {
    assert t !in multiset(s.ready) && t !in multiset(s.finished) && t !in multiset(Flatten(s.waiting));
    forall d | 0 <= d < |s.waiting| ensures t !in s.waiting[d] {
      if t in s.waiting[d] {
        InFlatten(s.waiting, d, t);
        assert false;
      }
    }
  }

  lemma CurrentNotQueued(s: Sched)
    requires Closed(s) && Partition(s)
    ensures Queued(s)[s.current.value] == 0
  {
    var c := s.current.value;
    assert (Queued(s) + multiset{c})[c] == multiset(s.tcb.Keys)[c];
  }

  lemma MarkAsReadyTidy(s: Sched, t: Tid)
    requires Tidy(s) && t in s.tcb && Queued(s)[t] == 0
    ensures Tidy(MarkAsReady(s, t))
  {
    NotQueued(s, t);
    PushSorted(s.ready, t);
    PushContents(s.ready, t);
    assert MarkAsReady(s, t).tcb.Keys == s.tcb.Keys;
  }

  lemma RetireTidy(s: Sched, t: Tid)
    requires Tidy(s) && t in s.tcb && s.tcb[t].status == Terminated
    ensures Tidy(Retire(s, t))
  {
    PushSorted(s.finished, t);
    PushContents(s.finished, t);
  }

  /** With every thread in some queue and one of them ready, `plan_next` restores the state a
      running thread may rely on. */
  lemma PlanNextSane(s: Sched)
    requires Tidy(s) && s.ready != [] && Queued(s) == multiset(s.tcb.Keys)
    ensures Sane(PlanNext(s))
  {
    var s' := PlanNext(s);
    var t := s.ready[0];
    PlanNextMoves(s);
    assert s'.tcb.Keys == s.tcb.Keys;
    CurrentNotQueued(s');
    NotQueued(s', t);
    assert forall x :: x in s'.ready ==> x in s.ready;
  }

  lemma RetireSane(s: Sched)
    requires Undecided(s) && s.ready != [] && s.current.Some? && s.tcb[s.current.value].status == Terminated
    ensures Sane(PlanNext(Retire(s, s.current.value)))
  {
    RetireTidy(s, s.current.value);
    RetireMoves(s, s.current.value);
    PlanNextSane(Retire(s, s.current.value));
  }

  lemma PreemptSane(s: Sched)
    requires Undecided(s) && s.ready != [] && Partition(s)
    ensures Sane(PlanNext(MarkAsReady(s, s.current.value)))
  {
    var c := s.current.value;
    CurrentNotQueued(s);
    MarkAsReadyTidy(s, c);
    MarkAsReadyMoves(s, c);
    PlanNextSane(MarkAsReady(s, c));
  }

  lemma AloneSane(s: Sched)
    requires Undecided(s) && s.ready == []
    ensures s.current.Some? && Sane(s)
  {
    hide Queued, Sorted;
  }

  /** The caller keeps the processor, with a new quantum or without. */
  lemma KeepSane(s: Sched, left: int)
    requires Undecided(s) && s.current.Some? && s.tcb[s.current.value].status == Running
    requires s.ready != [] ==> s.ready[0].priority <= s.current.value.priority
    ensures Sane(s)
    ensures var c := s.current.value; Sane(s.(tcb := s.tcb[c := s.tcb[c].(left := left)]))
  {
    hide Sorted, Flatten;
    var c := s.current.value;
    assert s.tcb[c := s.tcb[c].(left := left)].Keys == s.tcb.Keys;
  }

  /** `scheduler_check` leaves a state a running thread may rely on, whichever branch it takes. */
  lemma CheckSane(s: Sched)
    requires Undecided(s)
    ensures Sane(Check(s).next)
  {
    hide Queued, Sorted, Sane, PlanNext, MarkAsReady, Retire;
    if s.ready == [] {
      AloneSane(s);
    } else if s.current.None? || s.tcb[s.current.value].status == Waiting {
      PlanNextSane(s);
    } else if s.tcb[s.current.value].status == Terminated {
      RetireSane(s);
    } else if Check(s).switched {
      PreemptSane(s);
    } else {
      KeepSane(s, s.quantum);
    }
  }

  lemma TickUndecided(s: Sched)
    requires Undecided(s) && s.current.Some?
    ensures Undecided(Tick(s))
  {
    assert Tick(s).tcb.Keys == s.tcb.Keys;
  }

  lemma EnrolUndecided(s: Sched, io: nat)
    requires Sane(s) && io < |s.waiting| && s.ready != []
    ensures Undecided(Enrol(s, io))
  {
    hide Queued, Flatten, Push;
    var c := s.current.value;
    CurrentNotQueued(s);
    NotQueued(s, c);
    EnrolMoves(s, io);
    PushSorted(s.waiting[io], c);
    PushContents(s.waiting[io], c);
    assert Enrol(s, io).tcb.Keys == s.tcb.Keys;
  }

  lemma CreateTidy(s: Sched, priority: nat)
    requires Tidy(s) && priority <= MAX_PRIORITY
    ensures Tidy(Create(s, priority))
  {
    assert Create(s, priority).tcb.Keys == s.tcb.Keys + {NewTid(s, priority)};
    assert |s.tcb.Keys + {NewTid(s, priority)}| == |s.tcb.Keys| + 1;
  }

  lemma NewNotQueued(s: Sched, t: Tid)
    requires Closed(s) && t !in s.tcb && Queued(s) <= multiset(s.tcb.Keys)
    ensures Queued(s)[t] == 0
  {
    assert multiset(s.tcb.Keys)[t] == 0;
  }

  lemma CreateQueues(s: Sched, priority: nat)
    requires Closed(s)
    ensures var s' := MarkAsReady(Create(s, priority), NewTid(s, priority));
            Queued(s') == Queued(s) + multiset{NewTid(s, priority)}
            && multiset(s'.tcb.Keys) == multiset(s.tcb.Keys) + multiset{NewTid(s, priority)}
  {
    var t := NewTid(s, priority);
    MarkAsReadyMoves(Create(s, priority), t);
    assert MarkAsReady(Create(s, priority), t).tcb.Keys == s.tcb.Keys + {t};
  }

  /** The new thread does not touch the caller. */
  lemma CreateKeepsCaller(s: Sched, priority: nat)
    requires Closed(s)
    ensures var s' := MarkAsReady(Create(s, priority), NewTid(s, priority));
            s'.current == s.current && s'.ready != []
            && (s.current.Some? ==> s'.tcb[s.current.value] == s.tcb[s.current.value])
  {
    PushContents(s.ready, NewTid(s, priority));
  }

  lemma CreateTidied(s: Sched, priority: nat)
    requires Tidy(s) && priority <= MAX_PRIORITY && Queued(s) <= multiset(s.tcb.Keys)
    ensures Tidy(MarkAsReady(Create(s, priority), NewTid(s, priority)))
  {
    hide Flatten, Sorted, Push;
    NewNotQueued(s, NewTid(s, priority));
    CreateTidy(s, priority);
    MarkAsReadyTidy(Create(s, priority), NewTid(s, priority));
  }

  lemma CreateUndecided(s: Sched, priority: nat)
    requires Tidy(s) && priority <= MAX_PRIORITY
    requires if s.current.None? then Queued(s) == multiset(s.tcb.Keys) else Partition(s)
    requires s.current.Some? ==> s.tcb[s.current.value].status == Running
    ensures Undecided(MarkAsReady(Create(s, priority), NewTid(s, priority)))
  {
    hide Queued, Sorted, MarkAsReady, Create;
    assert Queued(s) <= multiset(s.tcb.Keys);
    CreateTidied(s, priority);
    CreateQueues(s, priority);
    CreateKeepsCaller(s, priority);
  }

  lemma PoppedTidy(s: Sched, io: nat)
    requires Tidy(s) && io < |s.waiting| && s.waiting[io] != []
    ensures Tidy(s.(waiting := s.waiting[io := s.waiting[io][1..]]))
  {
  }

  /** The thread that a signal takes out of its waiting queue is then in no queue at all. */
  lemma PoppedNotQueued(s: Sched, io: nat)
    requires Closed(s) && Partition(s) && io < |s.waiting| && s.waiting[io] != []
    ensures var popped := s.(waiting := s.waiting[io := s.waiting[io][1..]]);
            Closed(popped) && Queued(popped)[s.waiting[io][0]] == 0
            && s.waiting[io][0] in s.tcb && s.waiting[io][0] != s.current.value
  {
    var t := s.waiting[io][0];
    var popped := s.(waiting := s.waiting[io := s.waiting[io][1..]]);
    assert t in s.waiting[io];
    CurrentNotQueued(s);
    NotQueued(s, s.current.value);
    WakeOneMoves(s, io);
    MarkAsReadyMoves(popped, t);
    assert (Queued(popped) + multiset{t})[t] <= multiset(s.tcb.Keys)[t];
  }

  lemma WakeOneUndecided(s: Sched, io: nat)
    requires Undecided(s) && Partition(s) && io < |s.waiting| && s.waiting[io] != []
    ensures Undecided(WakeOne(s, io)) && Partition(WakeOne(s, io))
  {
    PoppedTidy(s, io);
    PoppedNotQueued(s, io);
    WakeOneMoves(s, io);
    MarkAsReadyTidy(s.(waiting := s.waiting[io := s.waiting[io][1..]]), s.waiting[io][0]);
    assert WakeOne(s, io).tcb.Keys == s.tcb.Keys;
  }

  lemma {:induction false} WakeAllUndecided(s: Sched, io: nat)
    requires Undecided(s) && Partition(s) && io < |s.waiting|
    ensures Undecided(WakeAll(s, io)) && Partition(WakeAll(s, io))
    decreases |s.waiting[io]|
  {
    if s.waiting[io] != [] {
      WakeOneUndecided(s, io);
      WakeAllUndecided(WakeOne(s, io), io);
    }
  }

  lemma TerminateUndecided(s: Sched)
    requires Sane(s)
    ensures Undecided(Terminate(s, s.current.value))
  {
    CurrentNotQueued(s);
    NotQueued(s, s.current.value);
    assert Terminate(s, s.current.value).tcb.Keys == s.tcb.Keys;
  }

  lemma {:induction false} BeforeTail(w: seq<seq<Tid>>, d: nat)
    requires w != [] && 1 <= d <= |w|
    ensures Before(w, d) == |w[0]| + Before(w[1..], d - 1)
  {
    if d != 1 {
      BeforeTail(w, d - 1);
      assert w[1..][d - 2] == w[d - 1];
    } else {
      assert Before(w, 1) == Before(w, 0) + |w[0]|;
    }
  }

  lemma {:induction false} FlattenLength(w: seq<seq<Tid>>)
    ensures |Flatten(w)| == Before(w, |w|)
  {
    if w != [] {
      FlattenLength(w[1..]);
      BeforeTail(w, |w|);
    }
  }

  lemma {:induction false} FlattenAt(w: seq<seq<Tid>>, d: nat)
    requires d < |w|
    ensures StandsAt(Flatten(w), Before(w, d), w[d])
  {
    if d != 0 {
      FlattenAt(w[1..], d - 1);
      BeforeTail(w, d);
      StandsBehind(w[0], Flatten(w[1..]), Before(w[1..], d - 1), w[d]);
    }
  }

  lemma StandsBehind(front: seq<Tid>, q: seq<Tid>, k: nat, part: seq<Tid>)
    requires StandsAt(q, k, part)
    ensures StandsAt(front + q, |front| + k, part)
  {
    var i := |front| + k;
    assert (front + q)[i..i + |part|] == q[k..k + |part|];
  }

  /** Where index `j` of the flattened queues comes from. */
  lemma {:induction false} FlattenOrigin(w: seq<seq<Tid>>, j: nat) returns (d: nat, i: nat)
    requires j < |Flatten(w)|
    ensures d < |w| && i < |w[d]| && j == Before(w, d) + i
  {
    if j < |w[0]| {
      d, i := 0, j;
    } else {
      d, i := FlattenOrigin(w[1..], j - |w[0]|);
      BeforeTail(w, d + 1);
      d := d + 1;
    }
  }

  /** The index behind the current thread. */
  ghost function First(s: Sched): nat {
    if s.current.Some? then 1 else 0
  }

  lemma ReadyStands(s: Sched)
    ensures StandsAt(ReclaimOrder(s), First(s), s.ready)
  {
    hide Flatten, StandsAt;
    var first := if s.current.Some? then [s.current.value] else [];
    assert ReclaimOrder(s) == first + s.ready + (s.finished + Flatten(s.waiting));
    StandsFirst(first, s.ready, s.finished + Flatten(s.waiting));
  }

  lemma FinishedStands(s: Sched)
    ensures StandsAt(ReclaimOrder(s), First(s) + |s.ready|, s.finished)
  {
    hide Flatten, StandsAt;
    var first := if s.current.Some? then [s.current.value] else [];
    StandsFirst(first + s.ready, s.finished, Flatten(s.waiting));
  }

  lemma WaitersStand(s: Sched, d: nat)
    requires d < |s.waiting|
    ensures StandsAt(ReclaimOrder(s), First(s) + |s.ready| + |s.finished| + Before(s.waiting, d), s.waiting[d])
  {
    hide Flatten, StandsAt, Before;
    var first := if s.current.Some? then [s.current.value] else [];
    FlattenAt(s.waiting, d);
    StandsBehind(first + s.ready + s.finished, Flatten(s.waiting), Before(s.waiting, d), s.waiting[d]);
  }

  lemma ReclaimOrderLength(s: Sched)
    ensures |ReclaimOrder(s)| == First(s) + |s.ready| + |s.finished| + Before(s.waiting, |s.waiting|)
    ensures s.current.Some? ==> ReclaimOrder(s)[0] == s.current.value
  {
    hide Flatten, Before;
    FlattenLength(s.waiting);
  }

  lemma ReclaimOrderInOrder(s: Sched)
    ensures InReclaimOrder(s, ReclaimOrder(s))
  {
    hide ReclaimOrder, StandsAt, Before;
    ReclaimOrderLength(s);
    ReadyStands(s);
    FinishedStands(s);
    forall d | 0 <= d < |s.waiting|
      ensures StandsAt(ReclaimOrder(s), First(s) + |s.ready| + |s.finished| + Before(s.waiting, d), s.waiting[d])
    {
      WaitersStand(s, d);
    }
  }

  lemma StandsFirst(front: seq<Tid>, part: seq<Tid>, back: seq<Tid>)
    ensures StandsAt(front + part + back, |front|, part)
  {
    assert (front + part + back)[|front|..|front| + |part|] == part;
  }

  lemma StandsEqual(q: seq<Tid>, r: seq<Tid>, k: nat, part: seq<Tid>, j: nat)
    requires StandsAt(q, k, part) && StandsAt(r, k, part) && k <= j < k + |part|
    ensures j < |q| && j < |r| && q[j] == r[j]
  {
    assert q[k..k + |part|][j - k] == r[k..k + |part|][j - k];
  }

  /** The order in which `so_end` reclaims, by index, and no other. */
  lemma ReclaimOrderByIndex(s: Sched, q: seq<Tid>)
    ensures q == ReclaimOrder(s) <==> InReclaimOrder(s, q)
  {
    hide Flatten, StandsAt, ReclaimOrder;
    ReclaimOrderInOrder(s);
    if InReclaimOrder(s, q) {
      forall j | 0 <= j < |q| ensures q[j] == ReclaimOrder(s)[j] {
        SameAtIndex(s, q, j);
      }
    }
  }

  lemma SameAtIndex(s: Sched, q: seq<Tid>, j: nat)
    requires InReclaimOrder(s, q) && InReclaimOrder(s, ReclaimOrder(s)) && j < |q|
    ensures |q| == |ReclaimOrder(s)| && q[j] == ReclaimOrder(s)[j]
  {
    hide Flatten, ReclaimOrder, StandsAt, Before;
    var r := ReclaimOrder(s);
    if First(s) <= j < First(s) + |s.ready| {
      StandsEqual(q, r, First(s), s.ready, j);
    } else if First(s) + |s.ready| <= j < First(s) + |s.ready| + |s.finished| {
      StandsEqual(q, r, First(s) + |s.ready|, s.finished, j);
    } else if First(s) <= j {
      SameWaiter(s, q, r, j);
    }
  }

  lemma SameWaiter(s: Sched, q: seq<Tid>, r: seq<Tid>, j: nat)
    requires InReclaimOrder(s, q) && InReclaimOrder(s, r) && First(s) + |s.ready| + |s.finished| <= j < |q|
    ensures j < |r| && q[j] == r[j]
  {
    hide Flatten, StandsAt, Before;
    var w := First(s) + |s.ready| + |s.finished|;
    FlattenLength(s.waiting);
    var d, i := FlattenOrigin(s.waiting, j - w);
    StandsEqual(q, r, w + Before(s.waiting, d), s.waiting[d], j);
  }
}
