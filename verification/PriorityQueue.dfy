/**
 The binary heap of priority_queue.c.  Its comparison looks at keys that live outside the queue (the
 head packets of sockets), so a key may change while its owner is queued and nothing is moved.
 */
module PriorityQueues {

  function Key(keys: seq<nat>, x: nat): nat { if x < |keys| then keys[x] else 0 }

  /** What the comparison of the FIFO queue calls smaller: not greater. */
  predicate Smaller(keys: seq<nat>, x: nat, y: nat) { Key(keys, x) <= Key(keys, y) }

  function Parent(i: nat): nat
    requires i > 0
  { (i - 1) / 2 }

  function Swap(h: seq<nat>, i: nat, j: nat): (r: seq<nat>)
    requires i < |h| && j < |h|
    ensures |r| == |h| && r[i] == h[j] && r[j] == h[i]
    ensures forall k :: 0 <= k < |h| && k != i && k != j ==> r[k] == h[k]
  { h[i := h[j]][j := h[i]] }

  /** _priorityqueue_heapify_up */
  function SiftUp(h: seq<nat>, keys: seq<nat>, i: nat): (r: seq<nat>)
    requires i < |h|
    ensures |r| == |h|
    decreases i
  {
    if i > 0 && Smaller(keys, h[i], h[Parent(i)]) then SiftUp(Swap(h, i, Parent(i)), keys, Parent(i)) else h
  }

  /** The smaller child of `i`. */
  function Child(h: seq<nat>, keys: seq<nat>, i: nat): (c: nat)
    requires 2 * i + 1 < |h|
    ensures c < |h| && c > 0 && Parent(c) == i
  {
    var c := 2 * i + 1;
    if c + 1 < |h| && Smaller(keys, h[c + 1], h[c]) then c + 1 else c
  }

  /** _priorityqueue_heapify_down */
  function SiftDown(h: seq<nat>, keys: seq<nat>, i: nat): (r: seq<nat>)
    requires i < |h|
    ensures |r| == |h|
    decreases |h| - i
  {
    if 2 * i + 1 >= |h| then h
    else
      var c := Child(h, keys, i);
      if Smaller(keys, h[c], h[i]) then SiftDown(Swap(h, i, c), keys, c) else h
  }

  /** priorityqueue_push of an element that is not queued */
  function Push(h: seq<nat>, keys: seq<nat>, x: nat): seq<nat> { SiftUp(h + [x], keys, |h|) }

  /** What priorityqueue_pop leaves; it returns h[0]. */
  function Pop(h: seq<nat>, keys: seq<nat>): seq<nat>
    requires h != []
  {
    var n := |h| - 1;
    if n == 0 then [] else SiftDown(Swap(h, 0, n)[..n], keys, 0)
  }

  // ----- contents -----------------------------------------------------------------------------------

  lemma SwapContents(h: seq<nat>, i: nat, j: nat)
    requires i < |h| && j < |h|
    ensures multiset(Swap(h, i, j)) == multiset(h)
  {
  }

  lemma {:induction false} SiftUpContents(h: seq<nat>, keys: seq<nat>, i: nat)
    requires i < |h|
    ensures multiset(SiftUp(h, keys, i)) == multiset(h)
    decreases i
  {
    if i > 0 && Smaller(keys, h[i], h[Parent(i)]) {
      SwapContents(h, i, Parent(i));
      SiftUpContents(Swap(h, i, Parent(i)), keys, Parent(i));
    }
  }

  lemma {:induction false} SiftDownContents(h: seq<nat>, keys: seq<nat>, i: nat)
    requires i < |h|
    ensures multiset(SiftDown(h, keys, i)) == multiset(h)
    decreases |h| - i
  {
    if 2 * i + 1 < |h| {
      var c := Child(h, keys, i);
      if Smaller(keys, h[c], h[i]) {
        SwapContents(h, i, c);
        SiftDownContents(Swap(h, i, c), keys, c);
      }
    }
  }

  /** A push adds one element and a pop removes the first. */
  lemma PushContents(h: seq<nat>, keys: seq<nat>, x: nat)
    ensures multiset(Push(h, keys, x)) == multiset(h) + multiset{x}
  {
    SiftUpContents(h + [x], keys, |h|);
  }

  lemma PopContents(h: seq<nat>, keys: seq<nat>)
    requires h != []
    ensures multiset(Pop(h, keys)) == multiset(h) - multiset{h[0]}
  {
    hide SiftDown;
    var n := |h| - 1;
    if n == 0 {
      assert h == [h[0]];
    } else {
      var g := Swap(h, 0, n);
      SwapContents(h, 0, n);
      assert g == g[..n] + [h[0]];
      SiftDownContents(g[..n], keys, 0);
    }
  }

  // ----- order --------------------------------------------------------------------------------------

  /** Position `i` is not smaller than its parent. */
  predicate Below(h: seq<nat>, keys: seq<nat>, i: nat)
    requires 0 < i < |h|
  { Key(keys, h[Parent(i)]) <= Key(keys, h[i]) }

  predicate HeapOrder(h: seq<nat>, keys: seq<nat>) { forall i :: 0 < i < |h| ==> Below(h, keys, i) }

  /** The children of `i` are not smaller than the parent of `i`. */
  predicate Bridged(h: seq<nat>, keys: seq<nat>, i: nat)
    requires i < |h|
  {
    i > 0 ==> forall j :: 0 < j < |h| && Parent(j) == i ==> Key(keys, h[Parent(i)]) <= Key(keys, h[j])
  }

  predicate OrderedButAbove(h: seq<nat>, keys: seq<nat>, i: nat)
    requires i < |h|
  { (forall j :: 0 < j < |h| && j != i ==> Below(h, keys, j)) && Bridged(h, keys, i) }

  predicate OrderedButBelow(h: seq<nat>, keys: seq<nat>, i: nat)
    requires i < |h|
  { (forall j :: 0 < j < |h| && Parent(j) != i ==> Below(h, keys, j)) && Bridged(h, keys, i) }

  lemma UpStep(h: seq<nat>, keys: seq<nat>, i: nat)
    requires 0 < i < |h| && OrderedButAbove(h, keys, i) && Smaller(keys, h[i], h[Parent(i)])
    ensures OrderedButAbove(Swap(h, i, Parent(i)), keys, Parent(i))
  {
    var p, g := Parent(i), Swap(h, i, Parent(i));
    assert p > 0 ==> Below(h, keys, p);
    forall j | 0 < j < |h| && j != p ensures Below(g, keys, j) {
      assert j != i ==> Below(h, keys, j);
    }
    forall j | p > 0 && 0 < j < |h| && Parent(j) == p ensures Key(keys, g[Parent(p)]) <= Key(keys, g[j]) {
      assert j != i ==> Below(h, keys, j);
    }
  }

  lemma {:induction false} SiftUpOrder(h: seq<nat>, keys: seq<nat>, i: nat)
    requires i < |h| && OrderedButAbove(h, keys, i)
    ensures HeapOrder(SiftUp(h, keys, i), keys)
    decreases i
  {
    if i > 0 && Smaller(keys, h[i], h[Parent(i)]) {
      UpStep(h, keys, i);
      SiftUpOrder(Swap(h, i, Parent(i)), keys, Parent(i));
    }
  }

  lemma DownStep(h: seq<nat>, keys: seq<nat>, i: nat)
    requires i < |h| && 2 * i + 1 < |h| && OrderedButBelow(h, keys, i)
    requires Smaller(keys, h[Child(h, keys, i)], h[i])
    ensures OrderedButBelow(Swap(h, i, Child(h, keys, i)), keys, Child(h, keys, i))
  {
    var c, g := Child(h, keys, i), Swap(h, i, Child(h, keys, i));
    forall j | 0 < j < |h| && Parent(j) != c ensures Below(g, keys, j) {
      if Parent(j) != i { assert Below(h, keys, j); } else { assert j == 2 * i + 1 || j == 2 * i + 2; }
    }
    forall j | 0 < j < |h| && Parent(j) == c ensures Key(keys, g[Parent(c)]) <= Key(keys, g[j]) {
      assert Below(h, keys, j);
    }
  }

  lemma {:induction false} SiftDownOrder(h: seq<nat>, keys: seq<nat>, i: nat)
    requires i < |h| && OrderedButBelow(h, keys, i)
    ensures HeapOrder(SiftDown(h, keys, i), keys)
    decreases |h| - i
  {
    if 2 * i + 1 < |h| && Smaller(keys, h[Child(h, keys, i)], h[i]) {
      DownStep(h, keys, i);
      SiftDownOrder(Swap(h, i, Child(h, keys, i)), keys, Child(h, keys, i));
    } else {
      forall j | 0 < j < |h| ensures Below(h, keys, j) {
        if Parent(j) == i { assert j == 2 * i + 1 || j == 2 * i + 2; }
      }
    }
  }

  lemma PushOrder(h: seq<nat>, keys: seq<nat>, x: nat)
    requires HeapOrder(h, keys)
    ensures HeapOrder(Push(h, keys, x), keys)
  {
    var g := h + [x];
    forall j | 0 < j < |g| && j != |h| ensures Below(g, keys, j) { assert Below(h, keys, j); }
    SiftUpOrder(g, keys, |h|);
  }

  lemma PopOrder(h: seq<nat>, keys: seq<nat>)
    requires h != [] && HeapOrder(h, keys)
    ensures HeapOrder(Pop(h, keys), keys)
  {
    var n := |h| - 1;
    if n > 0 {
      var g := Swap(h, 0, n)[..n];
      forall j | 0 < j < |g| && Parent(j) != 0 ensures Below(g, keys, j) { assert Below(h, keys, j); }
      SiftDownOrder(g, keys, 0);
    }
  }

  predicate RootLeast(h: seq<nat>, keys: seq<nat>) { forall k :: 0 <= k < |h| ==> Key(keys, h[0]) <= Key(keys, h[k]) }

  lemma {:induction false} RootBelow(h: seq<nat>, keys: seq<nat>, k: nat)
    requires HeapOrder(h, keys) && k < |h|
    ensures Key(keys, h[0]) <= Key(keys, h[k])
  {
    if k > 0 {
      assert Below(h, keys, k);
      RootBelow(h, keys, Parent(k));
    }
  }

  /** The element that a pop takes from an ordered heap has a least key. */
  lemma RootIsLeast(h: seq<nat>, keys: seq<nat>)
    requires HeapOrder(h, keys)
    ensures RootLeast(h, keys)
  {
    forall k | 0 <= k < |h| ensures Key(keys, h[0]) <= Key(keys, h[k]) { RootBelow(h, keys, k); }
  }

  /** Keys of elements that are not queued do not matter. */
  lemma SameOrder(h: seq<nat>, keys: seq<nat>, other: seq<nat>)
    requires forall k :: 0 <= k < |h| ==> Key(keys, h[k]) == Key(other, h[k])
    ensures HeapOrder(h, keys) <==> HeapOrder(h, other)
  {
    forall i | 0 < i < |h| ensures Below(h, keys, i) == Below(h, other, i) {}
    if HeapOrder(h, keys) { forall i | 0 < i < |h| ensures Below(h, other, i) { assert Below(h, keys, i); } }
    if HeapOrder(h, other) { forall i | 0 < i < |h| ensures Below(h, keys, i) { assert Below(h, other, i); } }
  }

  /** If the key of the queued element at `i` falls and nothing is moved, the heap stays in order exactly
      if the element is the root or its new key is not below its parent's. */
  lemma FallenKey(h: seq<nat>, keys: seq<nat>, other: seq<nat>, i: nat)
    requires i < |h| && HeapOrder(h, keys) && Key(other, h[i]) <= Key(keys, h[i])
    requires forall k :: 0 <= k < |h| && k != i ==> Key(keys, h[k]) == Key(other, h[k])
    ensures HeapOrder(h, other) <==> i == 0 || Key(keys, h[Parent(i)]) <= Key(other, h[i])
    ensures RootLeast(h, other) <==> i == 0 || Key(keys, h[0]) <= Key(other, h[i])
  {
    RootIsLeast(h, keys);
    if i > 0 { assert HeapOrder(h, other) ==> Below(h, other, i); }
    forall j | 0 < j < |h| && j != i ensures Below(h, other, j) { assert Below(h, keys, j); }
  }

  // ----- the queue, updated in place ------------------------------------------------------------------

  class PriorityQueue {
    var heap: seq<nat>

    constructor ()
      ensures heap == []
    {
      heap := [];
    }

    method SwapEntries(i: nat, j: nat)
      requires i < |heap| && j < |heap|
      modifies this
      ensures heap == Swap(old(heap), i, j)
    {
      var pi, pj := heap[i], heap[j];
      heap := heap[i := pj];
      heap := heap[j := pi];
    }

    method HeapifyUp(keys: seq<nat>, index: nat)
      requires index < |heap|
      modifies this
      ensures heap == SiftUp(old(heap), keys, index)
    {
      var i: nat := index;
      while i > 0 && Smaller(keys, heap[i], heap[(i - 1) / 2])
        invariant i < |heap| && SiftUp(heap, keys, i) == SiftUp(old(heap), keys, index)
        decreases i
      {
        SwapEntries(i, (i - 1) / 2);
        i := (i - 1) / 2;
      }
    }

    method SmallerChild(keys: seq<nat>, i: nat) returns (child: nat)
      requires 2 * i + 1 < |heap|
      ensures child == Child(heap, keys, i)
    {
      child := 2 * i + 1;
      if child + 1 < |heap| && Smaller(keys, heap[child + 1], heap[child]) {
        child := child + 1;
      }
    }

    method HeapifyDown(keys: seq<nat>, index: nat)
      requires index < |heap|
      modifies this
      ensures heap == SiftDown(old(heap), keys, index)
    {
      var i: nat := index;
      while 2 * i + 1 < |heap|
        invariant i < |heap| && SiftDown(heap, keys, i) == SiftDown(old(heap), keys, index)
        decreases |heap| - i
      {
        var child := SmallerChild(keys, i);
        if Smaller(keys, heap[child], heap[i]) {
          SwapEntries(i, child);
          i := child;
        } else {
          break;
        }
      }
    }

    method PushEntry(keys: seq<nat>, x: nat)
      modifies this
      ensures heap == Push(old(heap), keys, x)
    {
      var index := |heap|;
      heap := heap + [x];
      HeapifyUp(keys, index);
    }

    method PopEntry(keys: seq<nat>) returns (x: nat)
      requires heap != []
      modifies this
      ensures x == old(heap)[0] && heap == Pop(old(heap), keys)
    {
      x := heap[0];
      SwapEntries(0, |heap| - 1);
      heap := heap[..|heap| - 1];
      if heap != [] {
        HeapifyDown(keys, 0);
      }
    }
  }
}
