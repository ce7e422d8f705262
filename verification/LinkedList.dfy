/** The singly linked list, changed in place, and the sequence it stands for. */
module LinkedLists {

  class Node<T> {
    var next: Node?<T>
    var data: T

    constructor (data: T)
      ensures this.data == data && next == null
    {
      this.data := data;
      next := null;
    }
  }

  /** The index of the node that `remove_node` and `get_node` reach for `n`. */
  function Clamp(n: nat, size: nat): nat
    requires 0 < size
  {
    if n < size then n else size - 1
  }

  /** The index at which `add_node` inserts for `n`. */
  function ClampEnd(n: nat, size: nat): nat {
    if n < size then n else size
  }

  class LinkedList<T> {
    var head: Node?<T>
    var back: Node?<T>
    var size: nat
    /** The nodes of the chain, first to last, and the sequence the list stands for. */
    ghost var spine: seq<Node<T>>
    ghost var contents: seq<T>
    ghost var Repr: set<object>

    /** The chain is acyclic and ends in `back`, `size` is its length, and `head` and `back` are null
        exactly in the empty list. */
    ghost predicate Valid()
      reads this, Repr
      ensures Valid() ==> this in Repr
    {
      && this in Repr
      && (forall i :: 0 <= i < |spine| ==> spine[i] in Repr)
      && size == |spine| == |contents|
      && (forall i, j :: 0 <= i < j < |spine| ==> spine[i] != spine[j])
      && (forall i :: 0 <= i < |spine| ==> spine[i].data == contents[i])
      && (forall i :: 0 <= i < |spine| - 1 ==> spine[i].next == spine[i + 1])
      && (spine == [] ==> head == null && back == null)
      && (spine != [] ==> head == spine[0] && back == spine[|spine| - 1] && spine[|spine| - 1].next == null)
    }

    /** `list_init`. */
    constructor ()
      ensures Valid() && fresh(Repr) && contents == []
    {
      head, back, size, spine, contents := null, null, 0, [], [];
      Repr := {this};
    }

    /** The walk that `add_node`, `remove_node` and `get_node` share. */
    method Walk(n: nat) returns (prev: Node?<T>, curr: Node?<T>)
      requires Valid() && n < size
      ensures curr == spine[n] && prev == if n == 0 then null else spine[n - 1]
    {
      prev := null;
      curr := head;
      var k := n;
      while 0 < k
        invariant 0 <= k <= n && curr == spine[n - k]
        invariant prev == if k == n then null else spine[n - k - 1]
      {
        prev := curr;
        curr := curr.next;
        k := k - 1;
      }
    }

    /** `add_node`: insertion at the clamped index; nothing for a negative one. */
    method AddNode(n: int, x: T)
      requires Valid()
      modifies Repr
      ensures Valid() && fresh(Repr - old(Repr))
      ensures contents
           == if n < 0 then old(contents)
              else var k := ClampEnd(n, |old(contents)|); old(contents)[..k] + [x] + old(contents)[k..]
    {
      if n < 0 {
        return;
      }
      var node := new Node(x);
      if size == 0 {
        size := size + 1;
        head, back := node, node;
        spine, contents, Repr := [node], [x], Repr + {node};
        return;
      }
      if size <= n {
        size := size + 1;
        back.next := node;
        back := node;
        spine, contents, Repr := spine + [node], contents + [x], Repr + {node};
        return;
      }
      Insert(n, node);
    }

    /** The general case of `add_node`. */
    method Insert(n: nat, node: Node<T>)
      requires Valid() && n < size && node !in Repr
      modifies Repr, node
      ensures Valid() && Repr == old(Repr) + {node} && spine == old(spine)[..n] + [node] + old(spine)[n..]
      ensures contents == old(contents)[..n] + [old(node.data)] + old(contents)[n..]
    {
      LinkBefore(n, node);
      spine, contents := spine[..n] + [node] + spine[n..], contents[..n] + [node.data] + contents[n..];
      Repr := Repr + {node};
    }

    /** The pointer updates of that case: only the node before index `n`, or `head`, changes. */
    method LinkBefore(n: nat, node: Node<T>)
      requires Valid() && n < size && node !in Repr
      modifies this`head, this`size, node`next, (if n == 0 then {} else {spine[n - 1]})`next
      ensures size == old(size) + 1 && node.next == spine[n]
      ensures if n == 0 then head == node else head == old(head) && spine[n - 1].next == node
      ensures forall i :: 0 <= i < |spine| && i != n - 1 ==> spine[i].next == old(spine[i].next)
    {
      var prev, curr := Walk(n);
      node.next := curr;
      size := size + 1;
      if prev == null {
        head := node;
      } else {
        prev.next := node;
      }
    }

    /** `remove_node`: the node at the clamped index, taken out of the chain; null for a negative
        index or an empty list. */
    method RemoveNode(n: int) returns (node: Node?<T>)
      requires Valid()
      modifies Repr
      ensures Valid() && Repr == old(Repr)
      ensures node == null <==> n < 0 || old(contents) == []
      ensures node == null ==> contents == old(contents)
      ensures node == null ==> spine == old(spine)
      ensures node != null ==> var k := Clamp(n, |old(spine)|);
        node == old(spine)[k] && spine == old(spine)[..k] + old(spine)[k + 1..]
      ensures node != null ==> var k := Clamp(n, |old(contents)|);
        node.data == old(contents)[k] && contents == old(contents)[..k] + old(contents)[k + 1..]
    {
      if head == null || back == null || n < 0 {
        return null;
      }
      if size == 1 {
        size := size - 1;
        node := head;
        head, back := null, null;
        spine, contents := [], [];
        return;
      }
      var k := if size - 1 < n then size - 1 else n;
      node := Unlink(k);
    }

    /** The general case of `remove_node`. */
    method Unlink(k: nat) returns (node: Node<T>)
      requires Valid() && 1 < size && k < size
      modifies Repr
      ensures Valid() && Repr == old(Repr)
      ensures node == old(spine)[k] && node.data == old(contents)[k]
      ensures spine == old(spine)[..k] + old(spine)[k + 1..]
      ensures contents == old(contents)[..k] + old(contents)[k + 1..]
    {
      var prev, curr := Walk(k);
      size := size - 1;
      if prev == null {
        head := curr.next;
      } else if curr == back {
        back := prev;
        prev.next := null;
      } else {
        prev.next := curr.next;
      }
      node := curr;
      spine, contents := spine[..k] + spine[k + 1..], contents[..k] + contents[k + 1..];
    }

    /** `get_node`: the node at the clamped index; beyond the end it is the last one, not null. */
    method GetNode(n: int) returns (node: Node?<T>)
      requires Valid()
      ensures node == null <==> n < 0 || contents == []
      ensures node != null ==> node == spine[Clamp(n, |spine|)] && node.data == contents[Clamp(n, |contents|)]
    {
      if head == null || n < 0 {
        return null;
      }
      if size - 1 <= n {
        return back;
      }
      var prev, curr := Walk(n);
      node := curr;
    }

    /** The loop of `free_list_mem`: every element is handed to the free function, front first. */
    method FreeAll() returns (freed: seq<T>)
      requires Valid()
      modifies Repr
      ensures Valid() && Repr == old(Repr) && contents == [] && freed == old(contents)
    {
      hide Valid;
      freed := [];
      SizeIsLength();
      while 0 < size
        invariant Valid() && Repr == old(Repr) && size == |contents| <= |old(contents)|
        invariant freed == old(contents)[..|old(contents)| - size]
        invariant contents == old(contents)[|old(contents)| - size..]
        decreases size
      {
        var node := RemoveNode(0);
        SizeIsLength();
        freed := freed + [node.data];
      }
    }

    lemma SizeIsLength()
      requires Valid()
      ensures size == |contents|
    {
    }
  }
}
