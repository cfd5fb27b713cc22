/** The min priority queue of pkg/planner/astar/priority_queue.go and the part of Go's container/heap that drives it. */
module PriorityQueues {

  /** An entry of the queue. Only `index` is ever written after creation. */
  class Item<V> {
    const value: V
    const priority: real
    var index: int

    constructor (value: V, priority: real)
      ensures this.value == value && this.priority == priority && index == 0
    {
      this.value := value;
      this.priority := priority;
      index := 0;
    }
  }

  function Parent(i: nat): nat
  {
    if i == 0 then 0 else (i - 1) / 2
  }

  /** The item in slot i is no smaller than the one in slot `above`. */
  ghost predicate Under<V>(q: seq<Item<V>>, above: nat, i: nat)
  {
    above < |q| && i < |q| && q[above].priority <= q[i].priority
  }

  /** The first n items are in heap order. */
  ghost predicate HeapOrder<V>(q: seq<Item<V>>, n: nat)
  {
    forall i :: 0 < i < n ==> Under(q, Parent(i), i)
  }

  /** Heap order, except that the item in slot j may be smaller than its parent. */
  ghost predicate HeapButUp<V>(q: seq<Item<V>>, j: nat)
  {
    && (forall i :: 0 < i < |q| && i != j ==> Under(q, Parent(i), i))
    && (forall i :: 0 < i < |q| && Parent(i) == j ==> Under(q, Parent(j), i))
  }

  /** Heap order of the first n items, except that the item in slot j may be larger than its children. */
  ghost predicate HeapButDown<V>(q: seq<Item<V>>, n: nat, j: nat)
  {
    && (forall i :: 0 < i < n && Parent(i) != j ==> Under(q, Parent(i), i))
    && (j > 0 ==> forall i :: 0 < i < n && Parent(i) == j ==> Under(q, Parent(j), i))
  }

  /** In a heap the root is a minimum. */
  lemma {:induction false} RootIsLeast<V>(q: seq<Item<V>>, n: nat, i: nat)
    requires i < n <= |q| && HeapOrder(q, n)
    ensures q[0].priority <= q[i].priority
  {
    if i > 0 {
      assert Under(q, Parent(i), i);
      RootIsLeast(q, n, Parent(i));
    }
  }

  /** Exchanging an item with its larger parent moves the defect one level up. */
  lemma UpStep<V>(q: seq<Item<V>>, j: nat)
    requires 0 < j < |q| && HeapButUp(q, j) && q[j].priority < q[Parent(j)].priority
    ensures HeapButUp(Swapped(q, Parent(j), j), Parent(j))
  {
    var p, q' := Parent(j), Swapped(q, Parent(j), j);
    forall i | 0 < i < |q| && i != p ensures Under(q', Parent(i), i) {
      assert i != j ==> Under(q, Parent(i), i);
    }
    forall i | 0 < i < |q| && Parent(i) == p ensures Under(q', Parent(p), i) {
      assert i != j ==> Under(q, Parent(i), i);
      assert p > 0 ==> Under(q, Parent(p), p);
    }
  }

  /** Exchanging an item with its smallest child moves the defect one level down. */
  lemma DownStep<V>(q: seq<Item<V>>, n: nat, i: nat, j: nat)
    requires i < n <= |q| && HeapButDown(q, n, i) && 0 < j < n && Parent(j) == i
    requires q[j].priority < q[i].priority
    requires forall k :: 0 < k < n && Parent(k) == i ==> Under(q, j, k)
    ensures HeapButDown(Swapped(q, i, j), n, j)
  {
    var q' := Swapped(q, i, j);
    forall k | 0 < k < n && Parent(k) != j ensures Under(q', Parent(k), k) {
      assert if Parent(k) == i then Under(q, j, k) else Under(q, Parent(k), k);
      assert k == i ==> Under(q, Parent(i), j);
    }
    forall k | 0 < k < n && Parent(k) == j ensures Under(q', Parent(j), k) {
      assert Under(q, Parent(k), k);
    }
  }

  function Swapped<T>(s: seq<T>, i: nat, j: nat): seq<T>
    requires i < |s| && j < |s|
  {
    s[i := s[j]][j := s[i]]
  }

  lemma SwappedKeepsItems<T>(s: seq<T>, i: nat, j: nat)
    requires i < |s| && j < |s|
    ensures multiset(Swapped(s, i, j)) == multiset(s)
    ensures forall x :: x in Swapped(s, i, j) <==> x in s
  {
    assert multiset(Swapped(s, i, j)) == multiset(s);
    forall x ensures x in Swapped(s, i, j) <==> x in s {
      assert x in multiset(Swapped(s, i, j)) <==> x in multiset(s);
    }
  }

  class PriorityQueue<V> {
    var queue: seq<Item<V>>

    /** Every item knows the slot it sits in; in particular no item sits in two slots. */
    ghost predicate Indexed()
      reads this, queue
    {
      forall i :: 0 <= i < |queue| ==> queue[i].index == i
    }

    ghost predicate Valid()
      reads this, queue
    {
      Indexed() && HeapOrder(queue, |queue|)
    }

    constructor ()
      ensures Valid() && queue == []
    {
      queue := [];
    }

    function Len(): nat
      reads this
    {
      |queue|
    }

    predicate Less(i: nat, j: nat)
      requires i < |queue| && j < |queue|
      reads this
    {
      queue[i].priority < queue[j].priority
    }

    method Swap(i: nat, j: nat)
      requires i < |queue| && j < |queue| && Indexed()
      modifies this, queue[i], queue[j]
      ensures queue == Swapped(old(queue), i, j)
      ensures Indexed()
      ensures multiset(queue) == multiset(old(queue))
      ensures forall it :: it in queue <==> it in old(queue)
    {
      SwappedKeepsItems(queue, i, j);
      queue := queue[i := queue[j]][j := queue[i]];
      queue[i].index := i;
      queue[j].index := j;
    }

    method Push(item: Item<V>)
      requires Indexed() && item !in queue
      modifies this, item
      ensures queue == old(queue) + [item] && Indexed()
    {
      item.index := |queue|;
      queue := queue + [item];
    }

    method Pop() returns (item: Item<V>)
      requires Indexed() && queue != []
      modifies this, queue[|queue| - 1]
      ensures item == old(queue)[|old(queue)| - 1] && item.index == -1
      ensures queue == old(queue)[..|old(queue)| - 1] && Indexed()
    {
      var n := |queue|;
      item := queue[n - 1];
      item.index := -1;
      queue := queue[..n - 1];
    }
  }
}

/** Go's container/heap, run on the queue's own Less, Swap, Push and Pop. */
module Heap {
  import opened PriorityQueues

  /** Moves the item in slot `start`, the last one, towards the root. */
  method Up<V>(h: PriorityQueue<V>, start: nat)
    requires start + 1 == |h.queue| && h.Indexed() && HeapOrder(h.queue, start)
    modifies h, h.queue
    ensures h.Valid() && multiset(h.queue) == multiset(old(h.queue))
  {
    var j: nat := start;
    while true
      invariant j < |h.queue| == |old(h.queue)|
      invariant h.Indexed() && multiset(h.queue) == multiset(old(h.queue))
      invariant forall it :: it in h.queue <==> it in old(h.queue)
      invariant HeapButUp(h.queue, j)
      decreases j
    {
      var i := if j == 0 then 0 else (j - 1) / 2;
      if i == j || !h.Less(j, i) {
        break;
      }
      UpStep(h.queue, j);
      assert h.queue[i] in h.queue && h.queue[j] in h.queue;
      h.Swap(i, j);
      j := i;
    }
    assert j > 0 ==> Under(h.queue, Parent(j), j);
  }

  /** Moves the item in slot 0 down within the first n slots. */
  method Down<V>(h: PriorityQueue<V>, n: nat)
    requires n <= |h.queue| && h.Indexed() && HeapButDown(h.queue, n, 0)
    modifies h, h.queue
    ensures h.Indexed() && multiset(h.queue) == multiset(old(h.queue))
    ensures |h.queue| == |old(h.queue)| && forall k :: n <= k < |h.queue| ==> h.queue[k] == old(h.queue)[k]
    ensures HeapOrder(h.queue, n)
  {
    hide HeapButDown;
    var i: nat := 0;
    while true
      invariant |h.queue| == |old(h.queue)|
      invariant h.Indexed() && multiset(h.queue) == multiset(old(h.queue))
      invariant forall it :: it in h.queue <==> it in old(h.queue)
      invariant forall k :: n <= k < |h.queue| ==> h.queue[k] == old(h.queue)[k]
      invariant HeapButDown(h.queue, n, i)
      decreases n - i
    {
      var j1 := 2 * i + 1;
      if j1 >= n {
        DownEnds(h.queue, n, i, i);
        break;
      }
      var j := j1;
      var j2 := j1 + 1;
      if j2 < n && h.Less(j2, j1) {
        j := j2;
      }
      ChildrenUnder(h.queue, n, i, j);
      if !h.Less(j, i) {
        DownEnds(h.queue, n, i, j);
        break;
      }
      DownStep(h.queue, n, i, j);
      assert h.queue[i] in h.queue && h.queue[j] in h.queue;
      h.Swap(i, j);
      i := j;
    }
  }

  lemma DownEnds<V>(q: seq<Item<V>>, n: nat, i: nat, j: nat)
    requires n <= |q| && HeapButDown(q, n, i)
    requires 2 * i + 1 >= n || (i < n && j < n && q[i].priority <= q[j].priority)
    requires forall k :: 0 < k < n && Parent(k) == i ==> Under(q, j, k)
    ensures HeapOrder(q, n)
  {
    forall k | 0 < k < n ensures Under(q, Parent(k), k) {
      if Parent(k) == i {
        assert Under(q, j, k);
      }
    }
  }

  lemma ChildrenUnder<V>(q: seq<Item<V>>, n: nat, i: nat, j: nat)
    requires n <= |q| && 2 * i + 1 < n
    requires j == if 2 * i + 2 < n && q[2 * i + 2].priority < q[2 * i + 1].priority then 2 * i + 2 else 2 * i + 1
    ensures Parent(j) == i && forall k :: 0 < k < n && Parent(k) == i ==> Under(q, j, k)
  {
    forall k | 0 < k < n && Parent(k) == i ensures Under(q, j, k) {
      assert k == 2 * i + 1 || k == 2 * i + 2;
    }
  }

  lemma RootLeaves<V>(q: seq<Item<V>>, n: nat)
    requires |q| == n + 1 && HeapOrder(q, |q|)
    ensures HeapButDown(Swapped(q, 0, n), n, 0)
  {
    forall i | 0 < i < n && Parent(i) != 0 ensures Under(Swapped(q, 0, n), Parent(i), i) {
      assert Under(q, Parent(i), i);
    }
  }

  lemma OrderOfPrefix<V>(p: seq<Item<V>>, q: seq<Item<V>>, n: nat)
    requires |p| == n <= |q| && p == q[..n] && HeapOrder(q, n)
    ensures HeapOrder(p, n)
  {
    forall i | 0 < i < n ensures Under(p, Parent(i), i) {
      assert Under(q, Parent(i), i);
    }
  }

  method Push<V>(h: PriorityQueue<V>, item: Item<V>)
    requires h.Valid() && item !in h.queue
    modifies h, h.queue, item
    ensures h.Valid()
    ensures multiset(h.queue) == multiset(old(h.queue)) + multiset{item} && |h.queue| == |old(h.queue)| + 1
    ensures forall it :: it in h.queue <==> it in old(h.queue) || it == item
    ensures forall i :: 0 <= i < |h.queue| ==> h.queue[i] in old(h.queue) || h.queue[i] == item
  {
    h.Push(item);
    Up(h, |h.queue| - 1);
    SameItems(h.queue, old(h.queue) + [item]);
  }

  lemma SameItems<T>(s: seq<T>, t: seq<T>)
    requires multiset(s) == multiset(t)
    ensures |s| == |t| && forall x :: x in s <==> x in t
  {
    assert |multiset(s)| == |s| && |multiset(t)| == |t|;
    forall x ensures x in s <==> x in t {
      assert x in multiset(s) <==> x in multiset(t);
    }
  }

  method Pop<V>(h: PriorityQueue<V>) returns (item: Item<V>)
    requires h.Valid() && h.queue != []
    modifies h, h.queue
    ensures h.Valid() && item.index == -1 && item !in h.queue
    ensures item in old(h.queue) && forall it :: it in old(h.queue) ==> item.priority <= it.priority
    ensures multiset(h.queue) + multiset{item} == multiset(old(h.queue))
    ensures |h.queue| == |old(h.queue)| - 1
    ensures forall i :: 0 <= i < |h.queue| ==> h.queue[i] in old(h.queue)
    ensures forall it :: it in old(h.queue) <==> it in h.queue || it == item
  {
    hide HeapOrder, HeapButDown;
    forall i | 0 <= i < |h.queue| ensures h.queue[0].priority <= h.queue[i].priority {
      RootIsLeast(h.queue, |h.queue|, i);
    }
    var n := |h.queue| - 1;
    RootLeaves(h.queue, n);
    h.Swap(0, n);
    Down(h, n);
    assert h.queue == h.queue[..n] + [h.queue[n]];
    item := h.Pop();
    OrderOfPrefix(h.queue, h.queue + [item], n);
    SameItems(h.queue + [item], old(h.queue));
  }
}
