/** The priority queue over the linked list, ordered by a comparison function. */
module PrioQueues {
  import opened LinkedLists
  import opened StableOrder
  import opened Scheduling

  /** The index of the first element that compares lower than `x`. */
  function SlotBy<T>(cmp: (T, T) -> int, q: seq<T>, x: T): (k: nat)
    ensures k <= |q|
    ensures forall i :: 0 <= i < k ==> cmp(x, q[i]) <= 0
    ensures k < |q| ==> 0 < cmp(x, q[k])
  {
    if q == [] || 0 < cmp(x, q[0]) then 0 else 1 + SlotBy(cmp, q[1..], x)
  }

  /** The queue after `queue_push` with comparison `cmp`. */
  function PushBy<T>(cmp: (T, T) -> int, q: seq<T>, x: T): seq<T> {
    var k := SlotBy(cmp, q, x);
    q[..k] + [x] + q[k..]
  }

  lemma SlotByUnique<T>(cmp: (T, T) -> int, q: seq<T>, x: T, k: nat)
    requires k <= |q| && (forall i :: 0 <= i < k ==> cmp(x, q[i]) <= 0)
    requires k < |q| ==> 0 < cmp(x, q[k])
    ensures k == SlotBy(cmp, q, x)
  {
    var s := SlotBy(cmp, q, x);
  }

  /** A push is one insertion, at the only place with nothing lower before it and a lower one at it. */
  lemma PushByExactly<T>(cmp: (T, T) -> int, q: seq<T>, x: T, k: nat)
    requires k <= |q| && (forall i :: 0 <= i < k ==> cmp(x, q[i]) <= 0)
    requires k < |q| ==> 0 < cmp(x, q[k])
    ensures PushBy(cmp, q, x) == q[..k] + [x] + q[k..]
  {
    SlotByUnique(cmp, q, x, k);
  }

  /** `cmp_func`. */
  function CompareThreads(a: Tid, b: Tid): int {
    a.priority - b.priority
  }

  /** With the scheduler's comparison, a push is the stable push on threads. */
  lemma PushByPriority(q: seq<Tid>, t: Tid)
    ensures PushBy(CompareThreads, q, t) == Push(q, t)
  {
    SlotByUnique(CompareThreads, q, t, Slot(q, t));
  }

  class PrioQueue<T> {
    const cmp: (T, T) -> int
    const list: LinkedList<T>
    var size: nat
    ghost var contents: seq<T>
    ghost var Repr: set<object>

    ghost predicate Valid()
      reads this, Repr
      ensures Valid() ==> this in Repr
    {
      && this in Repr && list in Repr && list.Repr <= Repr && this !in list.Repr
      && list.Valid() && size == list.size && contents == list.contents
    }

    /** `queue_init`. */
    constructor (cmp: (T, T) -> int)
      ensures Valid() && fresh(Repr) && this.cmp == cmp && contents == []
    {
      this.cmp := cmp;
      list := new LinkedList();
      size, contents := 0, [];
      new;
      Repr := {this} + list.Repr;
    }

    /** The walk of `queue_push`: it stops at the first element that compares lower, or behind the
        last one, although `get_node` keeps answering with the last node there. */
    method FindSlot(x: T) returns (cnt: nat)
      requires Valid() && size != 0
      ensures cnt == SlotBy(cmp, contents, x)
    {
      hide LinkedList.Valid;
      list.SizeIsLength();
      cnt := 0;
      var first := list.GetNode(0);
      while first != null && cmp(x, first.data) <= 0
        invariant list.Valid() && size == list.size && cnt < size == |contents|
        invariant first != null && first.data == contents[cnt]
        invariant forall i :: 0 <= i < cnt ==> cmp(x, contents[i]) <= 0
        decreases size - cnt
      {
        cnt := cnt + 1;
        first := list.GetNode(cnt);
        if cnt == list.size {
          break;
        }
      }
      SlotByUnique(cmp, contents, x, cnt);
    }

    /** `queue_push`. */
    method Push(x: T)
      requires Valid()
      modifies Repr
      ensures Valid() && fresh(Repr - old(Repr))
      ensures contents == PushBy(cmp, old(contents), x)
    {
      hide LinkedList.Valid;
      list.SizeIsLength();
      if size == 0 {
        size := size + 1;
        list.AddNode(0, x);
        list.SizeIsLength();
        contents, Repr := list.contents, Repr + list.Repr;
        return;
      }
      var cnt := FindSlot(x);
      size := size + 1;
      list.AddNode(cnt, x);
      list.SizeIsLength();
      contents, Repr := list.contents, Repr + list.Repr;
    }

    /** `queue_pop`. */
    method Pop() returns (x: Option<T>)
      requires Valid()
      modifies Repr
      ensures Valid() && Repr == old(Repr)
      ensures old(contents) == [] ==> x == None && contents == []
      ensures old(contents) != [] ==> x == Some(old(contents)[0]) && contents == old(contents)[1..]
    {
      hide LinkedList.Valid;
      list.SizeIsLength();
      if size == 0 {
        return None;
      }
      var node := list.RemoveNode(0);
      list.SizeIsLength();
      size, contents := size - 1, list.contents;
      return Some(node.data);
    }

    /** `queue_top`. The source reads through the node without a check, so there must be one. */
    method Top() returns (x: T)
      requires Valid() && contents != []
      ensures x == contents[0]
    {
      var node := list.GetNode(0);
      x := node.data;
    }

    /** `queue_size`. */
    method Size() returns (n: nat)
      requires Valid()
      ensures n == |contents|
    {
      n := size;
    }

    /** `queue_free`: the elements, in the order in which the free function gets them. */
    method Free() returns (freed: seq<T>)
      requires Valid()
      modifies Repr
      ensures list.Valid() && Repr == old(Repr) && contents == [] && freed == old(contents)
    {
      freed := list.FreeAll();
      contents := [];
    }
  }
}
