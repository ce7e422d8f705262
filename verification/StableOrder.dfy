/** The order in which threads sit in a priority queue, on values: where `queue_push` puts a
    thread, and what that order means. */
module StableOrder {

  const MAX_PRIORITY: nat := 5

  /** What a `thread_t *` stands for: a thread's identity and its priority, which never changes. */
  datatype Tid = Tid(serial: nat, priority: nat)

  /** The index at which `t` is inserted: that of the first element of strictly lower priority. */
  function Slot(q: seq<Tid>, t: Tid): (k: nat)
    ensures k <= |q|
    ensures forall i :: 0 <= i < k ==> t.priority <= q[i].priority
    ensures k < |q| ==> q[k].priority < t.priority
  {
    if q == [] || q[0].priority < t.priority then 0 else 1 + Slot(q[1..], t)
  }

  /** The queue after `queue_push`. */
  function Push(q: seq<Tid>, t: Tid): seq<Tid> {
    q[..Slot(q, t)] + [t] + q[Slot(q, t)..]
  }

  /** The queue after pushing the elements of `ts` one by one. */
  function PushAll(q: seq<Tid>, ts: seq<Tid>): seq<Tid>
    decreases |ts|
  {
    if ts == [] then q else PushAll(Push(q, ts[0]), ts[1..])
  }

  /** Highest priority first. */
  ghost predicate Sorted(q: seq<Tid>) {
    forall i, j :: 0 <= i < j < |q| ==> q[j].priority <= q[i].priority
  }

  ghost predicate Bounded(q: seq<Tid>) {
    forall i :: 0 <= i < |q| ==> q[i].priority <= MAX_PRIORITY
  }

  /** The threads of priority `p`, in the order they have in `q`. */
  function Level(q: seq<Tid>, p: int): seq<Tid> {
    if q == [] then [] else (if q[0].priority == p then [q[0]] else []) + Level(q[1..], p)
  }

  /** The levels `p`, `p - 1`, ..., 0 of `q`, one behind the other. */
  function Levels(q: seq<Tid>, p: int): seq<Tid>
    decreases p + 1
  {
    if p < 0 then [] else Level(q, p) + Levels(q, p - 1)
  }

  /** `a` is in `q`, and `b` does not stand before it. */
  ghost predicate Ahead(q: seq<Tid>, a: Tid, b: Tid) {
    exists i :: 0 <= i < |q| && q[i] == a && b !in q[..i]
  }

  lemma PushSorted(q: seq<Tid>, t: Tid)
    requires Sorted(q)
    ensures Sorted(Push(q, t))
  {
    var k := Slot(q, t);
    assert forall i :: k <= i < |q| ==> q[i].priority < t.priority;
  }

  lemma PushContents(q: seq<Tid>, t: Tid)
    ensures multiset(Push(q, t)) == multiset(q) + multiset{t}
    ensures |Push(q, t)| == |q| + 1
    ensures forall x :: x in Push(q, t) <==> x in q || x == t
  {
    var k := Slot(q, t);
    assert q == q[..k] + q[k..];
    assert forall x :: x in Push(q, t) <==> x in multiset(Push(q, t));
    assert forall x :: x in q <==> x in multiset(q);
  }

  /** A push leaves the front alone when the front has at least the priority of the new thread. */
  lemma PushKeepsHead(q: seq<Tid>, t: Tid)
    requires q != [] && t.priority <= q[0].priority
    ensures Push(q, t)[0] == q[0]
    ensures Push(q, t)[1..] == Push(q[1..], t)
  {
    assert Slot(q, t) == 1 + Slot(q[1..], t);
    assert q[..Slot(q, t)][1..] == q[1..][..Slot(q[1..], t)];
  }

  /** A push lets nobody of at most the same priority overtake. */
  lemma PushKeepsAhead(q: seq<Tid>, t: Tid, a: Tid, b: Tid)
    requires Sorted(q) && Ahead(q, a, b) && (t == b ==> b.priority <= a.priority)
    ensures Ahead(Push(q, t), a, b)
  {
    var i :| 0 <= i < |q| && q[i] == a && b !in q[..i];
    var k := Slot(q, t);
    var r := Push(q, t);
    if k <= i {
      assert t != b by { if k < |q| { assert q[i].priority <= q[k].priority; } }
      assert r[i + 1] == a && r[..i + 1] == q[..k] + [t] + q[k..i];
    } else {
      assert r[i] == a && r[..i] == q[..i];
    }
  }

  lemma {:induction false} PushAllKeepsAhead(q: seq<Tid>, ts: seq<Tid>, a: Tid, b: Tid)
    requires Sorted(q) && Ahead(q, a, b) && b.priority <= a.priority
    ensures Ahead(PushAll(q, ts), a, b)
    decreases |ts|
  {
    if ts != [] {
      PushKeepsAhead(q, ts[0], a, b);
      PushSorted(q, ts[0]);
      PushAllKeepsAhead(Push(q, ts[0]), ts[1..], a, b);
    }
  }

  /** A thread pushed while `a` is queued goes behind `a` unless its priority is higher. */
  lemma PushGoesBehind(q: seq<Tid>, a: Tid, b: Tid)
    requires Sorted(q) && a in q && b !in q && b.priority <= a.priority
    ensures Ahead(Push(q, b), a, b)
  {
    var i :| 0 <= i < |q| && q[i] == a;
    assert b !in q[..i];
    assert Ahead(q, a, b);
    PushKeepsAhead(q, b, a, b);
  }

  /** So does one of a batch of threads pushed while `a` is queued. */
  lemma {:induction false} PushAllGoesBehind(q: seq<Tid>, ts: seq<Tid>, a: Tid, b: Tid)
    requires Sorted(q) && a in q && b !in q && b in PushAll(q, ts) && b.priority <= a.priority
    ensures Ahead(PushAll(q, ts), a, b)
    decreases |ts|
  {
    var r := Push(q, ts[0]);
    PushSorted(q, ts[0]);
    PushContents(q, ts[0]);
    if ts[0] == b {
      PushGoesBehind(q, a, b);
      PushAllKeepsAhead(r, ts[1..], a, b);
    } else {
      PushAllGoesBehind(r, ts[1..], a, b);
    }
  }

  /** A push leaves the thread at index `k` there, or puts a thread of higher priority at the front. */
  lemma PushKeepsIndex(q: seq<Tid>, t: Tid, k: nat)
    requires Sorted(q) && k < |q|
    ensures Push(q, t)[k] == q[k] || q[k].priority < Push(q, t)[0].priority
  {
    var s := Slot(q, t);
    if s <= k {
      assert q[k].priority <= q[s].priority < t.priority;
      assert Push(q, t)[s] == t;
      if 0 < s {
        assert Push(q, t)[0] == q[0];
      }
    }
  }

  lemma {:induction false} PushAllKeepsIndex(q: seq<Tid>, ts: seq<Tid>, k: nat)
    requires Sorted(q) && k < |q|
    ensures k < |PushAll(q, ts)|
    ensures PushAll(q, ts)[k] == q[k] || q[k].priority < PushAll(q, ts)[0].priority
    decreases |ts|
  {
    if ts != [] {
      var r := Push(q, ts[0]);
      PushKeepsIndex(q, ts[0], k);
      PushSorted(q, ts[0]);
      PushAllKeepsIndex(r, ts[1..], k);
      if q[k].priority < r[0].priority {
        PushAllKeepsHigh(r, ts[1..], q[k].priority);
      }
    }
  }

  lemma {:induction false} PushAllKeepsHigh(q: seq<Tid>, ts: seq<Tid>, p: int)
    requires q != [] && p < q[0].priority
    ensures PushAll(q, ts) != [] && p < PushAll(q, ts)[0].priority
    decreases |ts|
  {
    if ts != [] {
      assert Slot(q, ts[0]) != 0 ==> Push(q, ts[0])[0] == q[0];
      PushAllKeepsHigh(Push(q, ts[0]), ts[1..], p);
    }
  }

  lemma {:induction false} LevelAppend(q: seq<Tid>, r: seq<Tid>, p: int)
    ensures Level(q + r, p) == Level(q, p) + Level(r, p)
  {
    if q == [] {
      assert q + r == r;
    } else {
      var head := if q[0].priority == p then [q[0]] else [];
      calc {
        Level(q + r, p);
        { assert (q + r)[0] == q[0] && (q + r)[1..] == q[1..] + r; }
        head + Level(q[1..] + r, p);
        { LevelAppend(q[1..], r, p); }
        head + (Level(q[1..], p) + Level(r, p));
        (head + Level(q[1..], p)) + Level(r, p);
        Level(q, p) + Level(r, p);
      }
    }
  }

  lemma {:induction false} LevelOfOthers(q: seq<Tid>, p: int)
    requires forall i :: 0 <= i < |q| ==> q[i].priority != p
    ensures Level(q, p) == []
  {
    if q != [] {
      LevelOfOthers(q[1..], p);
    }
  }

  lemma {:induction false} LevelOfOwn(q: seq<Tid>, p: int)
    requires forall i :: 0 <= i < |q| ==> q[i].priority == p
    ensures Level(q, p) == q
  {
    if q != [] {
      LevelOfOwn(q[1..], p);
      assert q == [q[0]] + q[1..];
    }
  }

  /** A push appends to the level of the pushed thread and to no other. */
  lemma PushAppendsToLevel(q: seq<Tid>, t: Tid, p: int)
    requires Sorted(q)
    ensures Level(Push(q, t), p) == if p == t.priority then Level(q, p) + [t] else Level(q, p)
  {
    var k := Slot(q, t);
    LevelSplit(q, k, p);
    LevelInsert(q[..k], t, q[k..], p);
    if p == t.priority {
      LevelOfOthers(q[k..], p);
    }
  }

  lemma LevelSplit(q: seq<Tid>, k: nat, p: int)
    requires k <= |q|
    ensures Level(q, p) == Level(q[..k], p) + Level(q[k..], p)
  {
    LevelAppend(q[..k], q[k..], p);
    assert q == q[..k] + q[k..];
  }

  lemma LevelInsert(front: seq<Tid>, t: Tid, back: seq<Tid>, p: int)
    ensures Level(front + [t] + back, p)
         == Level(front, p) + (if p == t.priority then [t] else []) + Level(back, p)
  {
    LevelAppend(front + [t], back, p);
    LevelAppend(front, [t], p);
    assert Level([t], p) == if p == t.priority then [t] else [];
  }

  /** A batch of pushes appends to each level the batch's own threads of that level. */
  lemma {:induction false} PushAllAppendsToLevel(q: seq<Tid>, ts: seq<Tid>, p: int)
    requires Sorted(q)
    ensures Sorted(PushAll(q, ts))
    ensures Level(PushAll(q, ts), p) == Level(q, p) + Level(ts, p)
    decreases |ts|
  {
    if ts != [] {
      PushSorted(q, ts[0]);
      PushAllAppendsToLevel(Push(q, ts[0]), ts[1..], p);
      PushAppendsToLevel(q, ts[0], p);
    }
  }

  lemma {:induction false} PushAllContents(q: seq<Tid>, ts: seq<Tid>)
    ensures multiset(PushAll(q, ts)) == multiset(q) + multiset(ts)
    decreases |ts|
  {
    if ts != [] {
      PushContents(q, ts[0]);
      PushAllContents(Push(q, ts[0]), ts[1..]);
      assert ts == [ts[0]] + ts[1..];
    }
  }

  /** The sorted list is a multi-level queue: its levels from 5 down to 0, one behind the other. */
  lemma SortedIsLevels(q: seq<Tid>)
    requires Sorted(q) && Bounded(q)
    ensures q == Levels(q, MAX_PRIORITY)
  {
    SortedIsLevelsUpTo(q, MAX_PRIORITY);
  }

  lemma {:induction false} SortedIsLevelsUpTo(q: seq<Tid>, p: int)
    requires Sorted(q) && -1 <= p && forall i :: 0 <= i < |q| ==> q[i].priority <= p
    ensures q == Levels(q, p)
    decreases p + 1
  {
    var highest := if q == [] then -1 else q[0].priority;
    assert highest <= p;
    if 0 <= p {
      var k := TopLevel(q, p);
      SortedIsLevelsUpTo(q[k..], p - 1);
      LevelsOfTail(q[..k], q[k..], p, p - 1);
      assert q == q[..k] + q[k..];
    }
  }

  /** The highest level of a sorted queue is its front part. */
  lemma TopLevel(q: seq<Tid>, p: int) returns (k: nat)
    requires Sorted(q) && forall i :: 0 <= i < |q| ==> q[i].priority <= p
    ensures k <= |q| && Level(q, p) == q[..k]
    ensures forall i :: 0 <= i < k ==> q[i].priority == p
    ensures forall i :: k <= i < |q| ==> q[i].priority <= p - 1
  {
    k := LevelEnd(q, p);
    LevelSplit(q, k, p);
    LevelOfOwn(q[..k], p);
    LevelOfOthers(q[k..], p);
  }

  ghost function LevelEnd(q: seq<Tid>, p: int): (k: nat)
    requires Sorted(q) && forall i :: 0 <= i < |q| ==> q[i].priority <= p
    ensures k <= |q| && (forall i :: 0 <= i < k ==> q[i].priority == p)
    ensures forall i :: k <= i < |q| ==> q[i].priority <= p - 1
  {
    if q == [] || q[0].priority != p then 0 else
      var k := LevelEnd(q[1..], p);
      assert forall i :: 1 <= i < |q| ==> q[i] == q[1..][i - 1];
      1 + k
  }

  lemma {:induction false} LevelsOfTail(front: seq<Tid>, back: seq<Tid>, p: int, r: int)
    requires forall i :: 0 <= i < |front| ==> front[i].priority == p
    requires -1 <= r < p
    ensures Levels(front + back, r) == Levels(back, r)
    decreases r + 1
  {
    if 0 <= r {
      assert Level(front + back, r) == Level(back, r) by {
        LevelAppend(front, back, r);
        LevelOfOthers(front, r);
      }
      LevelsOfTail(front, back, p, r - 1);
    }
  }

  /** Only one sorted sequence has given levels: any other way of keeping the levels apart yields
      the same queue. */
  lemma SortedUnique(q: seq<Tid>, r: seq<Tid>)
    requires Sorted(q) && Sorted(r) && Bounded(q) && Bounded(r)
    requires forall p :: 0 <= p <= MAX_PRIORITY ==> Level(q, p) == Level(r, p)
    ensures q == r
  {
    SortedIsLevels(q);
    SortedIsLevels(r);
    LevelsEqual(q, r, MAX_PRIORITY);
  }

  lemma {:induction false} LevelsEqual(q: seq<Tid>, r: seq<Tid>, p: int)
    requires p <= MAX_PRIORITY
    requires forall p' :: 0 <= p' <= MAX_PRIORITY ==> Level(q, p') == Level(r, p')
    ensures Levels(q, p) == Levels(r, p)
    decreases p + 1
  {
    if 0 <= p {
      LevelsEqual(q, r, p - 1);
    }
  }

  /** Pushing any batch into an empty queue and popping it all is the stable sort of the batch: a
      sorted permutation of it in which equal priorities keep their order. */
  lemma PushAllIsStableSort(ts: seq<Tid>)
    ensures Sorted(PushAll([], ts))
    ensures multiset(PushAll([], ts)) == multiset(ts)
    ensures forall p: int :: Level(PushAll([], ts), p) == Level(ts, p)
  {
    PushAllContents([], ts);
    PushAllAppendsToLevel([], ts, 0);
    forall p: int ensures Level(PushAll([], ts), p) == Level(ts, p) {
      PushAllAppendsToLevel([], ts, p);
    }
  }

  /** Taking the front of the queue takes the front of the highest level that is not empty. */
  lemma PopTakesHighestLevel(q: seq<Tid>, p: int)
    requires Sorted(q) && q != []
    ensures Level(q, p) == if p == q[0].priority then [q[0]] + Level(q[1..], p) else Level(q[1..], p)
    ensures q[0].priority < p ==> Level(q, p) == []
  {
    if q[0].priority < p {
      LevelOfOthers(q, p);
    }
  }

  /** When a thread that used up its quantum goes behind the queue's front of equal priority and
      that front is taken out, the level rotates by one and every other level stays. */
  lemma RotateLevel(q: seq<Tid>, t: Tid, p: int)
    requires Sorted(q) && q != [] && q[0].priority == t.priority
    ensures var r := Push(q, t);
            r[0] == q[0]
            && (p == t.priority ==> [r[0]] + Level(r[1..], p) == Level(q, p) + [t])
            && (p != t.priority ==> Level(r[1..], p) == Level(q, p))
  {
    PushKeepsHead(q, t);
    PushAppendsToLevel(q[1..], t, p);
    PopTakesHighestLevel(q, p);
  }
}
