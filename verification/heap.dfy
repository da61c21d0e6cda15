/** Go's container/heap over a slice of pointers whose elements remember their
    slot, as PriorityTaskQueue and DelayManager both use it. */
module Heaps {

  class Node<T> {
    const value: T
    var index: int

    constructor (value: T)
      ensures this.value == value
    {
      this.value := value;
      index := 0;
    }
  }

  function ValuesOf<T>(nodes: seq<Node<T>>): (vs: seq<T>)
    ensures |vs| == |nodes|
  {
    if nodes == [] then [] else ValuesOf(nodes[..|nodes| - 1]) + [nodes[|nodes| - 1].value]
  }

  lemma {:induction false} ValuesConcat<T>(a: seq<Node<T>>, b: seq<Node<T>>)
    ensures ValuesOf(a + b) == ValuesOf(a) + ValuesOf(b)
  {
    if b == [] {
      assert a + b == a;
    } else {
      assert (a + b)[..|a + b| - 1] == a + b[..|b| - 1];
      ValuesConcat(a, b[..|b| - 1]);
    }
  }

  lemma {:induction false} ValueAt<T>(nodes: seq<Node<T>>, i: nat)
    requires i < |nodes|
    ensures ValuesOf(nodes)[i] == nodes[i].value
  {
    if i < |nodes| - 1 {
      ValueAt(nodes[..|nodes| - 1], i);
    }
  }

  /** Taking one node out takes out its value. */
  lemma TakeOut<T>(nodes: seq<Node<T>>, k: nat)
    requires k < |nodes|
    ensures var rest := nodes[..k] + nodes[k + 1..];
            && multiset(nodes) == multiset(rest) + multiset{nodes[k]}
            && multiset(ValuesOf(nodes)) == multiset(ValuesOf(rest)) + multiset{nodes[k].value}
  {
    var l, x, r := nodes[..k], [nodes[k]], nodes[k + 1..];
    assert nodes == l + (x + r);
    ValuesConcat(l, x + r);
    ValuesConcat(x, r);
    ValuesConcat(l, r);
    assert ValuesOf(x) == [nodes[k].value];
  }

  lemma Cancel<T>(a: multiset<T>, b: multiset<T>, x: T)
    requires a + multiset{x} == b + multiset{x}
    ensures a == b
  {
    assert a == (a + multiset{x}) - multiset{x};
    assert b == (b + multiset{x}) - multiset{x};
  }

  /** Rearranging the nodes rearranges the values. */
  lemma {:induction false} ValuesPermute<T>(a: seq<Node<T>>, b: seq<Node<T>>)
    requires multiset(a) == multiset(b)
    ensures multiset(ValuesOf(a)) == multiset(ValuesOf(b))
    decreases |a|
  {
    hide ValuesOf;
    if a == [] {
      assert |multiset(b)| == 0;
    } else {
      var x := a[0];
      assert x in multiset(b);
      var k :| 0 <= k < |b| && b[k] == x;
      var restA, restB := a[..0] + a[1..], b[..k] + b[k + 1..];
      TakeOut(a, 0);
      TakeOut(b, k);
      Cancel(multiset(restA), multiset(restB), x);
      ValuesPermute(restA, restB);
    }
  }

  /** What Less must be for a heap to make sense: its complement is a total preorder. */
  ghost predicate WeakOrder<T(!new)>(less: (T, T) -> bool)
  {
    && (forall a, b :: less(a, b) ==> !less(b, a))
    && (forall a, b, c :: !less(a, b) && !less(b, c) ==> !less(a, c))
  }

  function Parent(i: nat): nat { if i == 0 then 0 else (i - 1) / 2 }

  /** Slot k is not smaller than its parent. */
  ghost predicate Fits<T>(less: (T, T) -> bool, nodes: seq<Node<T>>, k: nat)
    requires k < |nodes|
  {
    !less(nodes[k].value, nodes[Parent(k)].value)
  }

  ghost predicate Ordered<T>(less: (T, T) -> bool, nodes: seq<Node<T>>)
  {
    forall k :: 1 <= k < |nodes| ==> Fits(less, nodes, k)
  }

  /** Only slot j may be smaller than its parent; its children fit under that parent. */
  ghost predicate OrderedBelow<T>(less: (T, T) -> bool, nodes: seq<Node<T>>, j: nat)
    requires j < |nodes|
  {
    && (forall k :: 1 <= k < |nodes| && k != j ==> Fits(less, nodes, k))
    && (forall k :: 1 <= k < |nodes| && Parent(k) == j && j > 0 ==> !less(nodes[k].value, nodes[Parent(j)].value))
  }

  /** In the first n slots only the children of slot i may be smaller than i. */
  ghost predicate OrderedAbove<T>(less: (T, T) -> bool, nodes: seq<Node<T>>, i: nat, n: nat)
    requires n <= |nodes|
  {
    && (forall k :: 1 <= k < n && Parent(k) != i ==> Fits(less, nodes, k))
    && (forall k :: 1 <= k < n && Parent(k) == i && i > 0 ==> !less(nodes[k].value, nodes[Parent(i)].value))
  }

  /** In a heap nothing is smaller than the root. */
  lemma {:induction false} RootIsLeast<T(!new)>(less: (T, T) -> bool, nodes: seq<Node<T>>, k: nat)
    requires WeakOrder(less) && Ordered(less, nodes) && k < |nodes|
    ensures !less(nodes[k].value, nodes[0].value)
    decreases k
  {
    if k > 0 {
      assert Fits(less, nodes, k);
      RootIsLeast(less, nodes, Parent(k));
    }
  }

  lemma NothingBelowRoot<T(!new)>(less: (T, T) -> bool, nodes: seq<Node<T>>)
    requires WeakOrder(less) && Ordered(less, nodes) && nodes != []
    ensures forall m :: m in nodes ==> !less(m.value, nodes[0].value)
  {
    forall m | m in nodes ensures !less(m.value, nodes[0].value) {
      var k :| 0 <= k < |nodes| && nodes[k] == m;
      RootIsLeast(less, nodes, k);
    }
  }

  /** After the root and the last slot have changed places only the root may be off. */
  lemma RootMayBeOff<T(!new)>(less: (T, T) -> bool, nodes: seq<Node<T>>, n: nat)
    requires Ordered(less, nodes) && n + 1 == |nodes| && n > 0
    ensures OrderedAbove(less, Swapped(nodes, 0, n), 0, n)
  {
    forall k | 1 <= k < n && Parent(k) != 0 ensures Fits(less, Swapped(nodes, 0, n), k) {
      assert Fits(less, nodes, k);
    }
  }

  lemma NoNodesAreOrdered<T>(less: (T, T) -> bool, nodes: seq<Node<T>>)
    requires nodes == []
    ensures Ordered(less, nodes)
  {
  }

  function Swapped<T>(s: seq<T>, i: nat, j: nat): seq<T>
    requires i < |s| && j < |s|
  {
    s[i := s[j]][j := s[i]]
  }

  lemma SwapPermutes<T>(s: seq<T>, i: nat, j: nat)
    requires i < |s| && j < |s|
    ensures multiset(Swapped(s, i, j)) == multiset(s)
  {
  }

  lemma SplitLast<T>(before: seq<T>, full: seq<T>)
    requires full != [] && multiset(before) == multiset(full)
    ensures var n := |full| - 1;
            multiset(before) == multiset(full[..n]) + multiset{full[n]} && full[n] in before
  {
    var n := |full| - 1;
    assert full == full[..n] + [full[n]];
    assert full[n] in multiset(before);
  }

  class Heap<T(!new)> {
    var nodes: seq<Node<T>>
    const less: (T, T) -> bool

    /** Every element knows its slot, so no element occurs twice. */
    ghost predicate Indexed()
      reads this, nodes
    {
      forall i :: 0 <= i < |nodes| ==> nodes[i].index == i
    }

    ghost predicate Valid()
      reads this, nodes
    {
      WeakOrder(less) && Indexed() && Ordered(less, nodes)
    }

    constructor (less: (T, T) -> bool)
      requires WeakOrder(less)
      ensures Valid() && nodes == [] && this.less == less
    {
      this.less := less;
      nodes := [];
    }

    method Swap(i: nat, j: nat)
      requires i < |nodes| && j < |nodes| && Indexed()
      modifies this`nodes, nodes[i], nodes[j]
      ensures nodes == Swapped(old(nodes), i, j) && Indexed()
      ensures multiset(nodes) == multiset(old(nodes))
    {
      SwapPermutes(nodes, i, j);
      nodes := nodes[i := nodes[j]][j := nodes[i]];
      nodes[i].index := i;
      nodes[j].index := j;
    }

    /** Moves slot j0 towards the root; it ends at the root exactly when it was
        smaller than everything on its way there. */
    method Up(j0: nat)
      requires WeakOrder(less) && j0 < |nodes| && Indexed() && OrderedBelow(less, nodes, j0)
      modifies this`nodes, nodes
      ensures Valid() && |nodes| == |old(nodes)| && multiset(nodes) == multiset(old(nodes))
      ensures old(nodes)[j0] == nodes[0] <==> j0 == 0 || less(old(nodes[j0]).value, old(nodes[0]).value)
    {
      var j: nat := j0;
      while true
        invariant forall m :: m in nodes ==> m in old(nodes)
        invariant j <= j0 < |nodes| && Indexed() && OrderedBelow(less, nodes, j)
        invariant |nodes| == |old(nodes)| && multiset(nodes) == multiset(old(nodes))
        invariant nodes[j] == old(nodes)[j0] && (j > 0 ==> nodes[0] == old(nodes)[0])
        invariant j == 0 && j0 > 0 ==> less(old(nodes)[j0].value, old(nodes)[0].value)
        decreases j
      {
        var i := Parent(j);
        if i == j || !less(nodes[j].value, nodes[i].value) { break; }
        ghost var before := nodes;
        assert nodes[i] in before && nodes[j] in before;
        Swap(i, j);
        SwapKeepsOrderBelow(less, before, i, j);
        assert forall m :: m in nodes ==> m in multiset(nodes);
        j := i;
      }
      assert Ordered(less, nodes);
      if j > 0 {
        RootIsLeast(less, nodes, j);
      }
    }

    /** Moves slot i0 away from the root within the first n slots. */
    method Down(i0: nat, n: nat)
      requires WeakOrder(less) && i0 < n <= |nodes| && Indexed() && OrderedAbove(less, nodes, i0, n)
      modifies this`nodes, nodes
      ensures Indexed() && |nodes| == |old(nodes)| && multiset(nodes) == multiset(old(nodes))
      ensures Ordered(less, nodes[..n]) && nodes[n..] == old(nodes)[n..]
    {
      hide WeakOrder, OrderedAbove, Ordered, Fits;
      var i: nat := i0;
      while true
        invariant forall m :: m in nodes ==> m in old(nodes)
        invariant i < n <= |nodes| && Indexed() && OrderedAbove(less, nodes, i, n)
        invariant |nodes| == |old(nodes)| && multiset(nodes) == multiset(old(nodes))
        invariant nodes[n..] == old(nodes)[n..]
        decreases n - i
      {
        var j1 := 2 * i + 1;
        if j1 >= n { break; }
        var j: nat := j1;
        var j2 := j1 + 1;
        if j2 < n && less(nodes[j2].value, nodes[j1].value) { j := j2; }
        if !less(nodes[j].value, nodes[i].value) { break; }
        ghost var before := nodes;
        assert nodes[i] in before && nodes[j] in before;
        SwapKeepsOrderAbove(less, before, i, j, n);
        Swap(i, j);
        assert forall m :: m in nodes ==> m in multiset(nodes);
        i := j;
      }
      OrderedWhenSettled(less, nodes, i, n);
    }

    /** Pop of heap.Interface: takes off the last slot. */
    method RemoveLast() returns (x: Node<T>)
      requires Indexed() && nodes != []
      modifies this`nodes, nodes[|nodes| - 1]
      ensures Indexed() && nodes == old(nodes)[..|old(nodes)| - 1]
      ensures x == old(nodes)[|old(nodes)| - 1] && x.index == -1 && x !in nodes
    {
      var n := |nodes|;
      x := nodes[n - 1];
      x.index := -1;
      nodes := nodes[..n - 1];
    }

    /** heap.Push: the new element sits at the root exactly when it is smaller
        than every element that was there. */
    method Push(x: Node<T>)
      requires Valid() && x !in nodes
      modifies this`nodes, nodes, x
      ensures Valid() && multiset(nodes) == multiset(old(nodes)) + multiset{x}
      ensures x.index == 0 <==> forall n :: n in old(nodes) ==> less(x.value, n.value)
    {
      x.index := |nodes|;
      nodes := nodes + [x];
      ghost var start := nodes;
      forall k | 1 <= k < |nodes| && k != |nodes| - 1 ensures Fits(less, nodes, k) {
        assert Fits(less, old(nodes), k);
      }
      Up(|nodes| - 1);
      assert x in multiset(nodes);
      assert x.index == 0 <==> nodes[0] == x;
      if x.index == 0 {
        forall n | n in old(nodes) ensures less(x.value, n.value) {
          var k :| 0 <= k < |old(nodes)| && old(nodes)[k] == n;
          RootIsLeast(less, old(nodes), k);
          assert less(x.value, old(nodes)[0].value);
        }
      } else {
        assert old(nodes)[0] in old(nodes);
      }
    }

    /** The first half of heap.Pop: the root goes to the last slot and the rest is a heap again. */
    method RootToLast()
      requires Valid() && nodes != []
      modifies this`nodes, nodes
      ensures Indexed() && |nodes| == |old(nodes)| && multiset(nodes) == multiset(old(nodes))
      ensures Ordered(less, nodes[..|nodes| - 1]) && nodes[|nodes| - 1] == old(nodes)[0]
    {
      hide WeakOrder, OrderedAbove, Ordered, Fits;
      var n := |nodes| - 1;
      ghost var before := nodes;
      Swap(0, n);
      if n > 0 {
        RootMayBeOff(less, before, n);
        Down(0, n);
        assert nodes[n..] == [before[0]];
      } else {
        NoNodesAreOrdered(less, nodes[..n]);
      }
    }

    /** heap.Pop: takes out an element that nothing else is smaller than. */
    method Pop() returns (x: Node<T>)
      requires Valid() && nodes != []
      modifies this`nodes, nodes
      ensures Valid() && x == old(nodes)[0] && x.index == -1
      ensures multiset(old(nodes)) == multiset(nodes) + multiset{x} && x !in nodes
      ensures forall n :: n in old(nodes) ==> !less(n.value, x.value)
    {
      hide WeakOrder, Ordered;
      ghost var before := nodes;
      NothingBelowRoot(less, before);
      RootToLast();
      SplitLast(before, nodes);
      x := RemoveLast();
    }

    /** Peek: the root, if there is one. */
    function Peek(): (r: seq<T>)
      requires Valid()
      reads this, nodes
      ensures r == [] <==> nodes == []
      ensures r != [] ==> |r| == 1 && forall n :: n in nodes ==> !less(n.value, r[0])
    {
      if nodes == [] then []
      else
        NothingBelowRoot(less, nodes);
        [nodes[0].value]
    }
  }

  lemma SwapKeepsOrderBelow<T(!new)>(less: (T, T) -> bool, nodes: seq<Node<T>>, i: nat, j: nat)
    requires WeakOrder(less) && j < |nodes| && i == Parent(j) && i != j
    requires OrderedBelow(less, nodes, j) && less(nodes[j].value, nodes[i].value)
    ensures OrderedBelow(less, Swapped(nodes, i, j), i)
  {
    var after := Swapped(nodes, i, j);
    forall k | 1 <= k < |after| && k != i ensures Fits(less, after, k) {
      if k != j {
        assert Fits(less, nodes, k);
      }
    }
    forall k | 1 <= k < |after| && Parent(k) == i && i > 0 ensures !less(after[k].value, after[Parent(i)].value) {
      assert Fits(less, nodes, i);
      if k != j {
        assert Fits(less, nodes, k);
      }
    }
  }

  /** Slot j is the child of i that down picks: the right one only when it is smaller. */
  ghost predicate PickedChild<T>(less: (T, T) -> bool, nodes: seq<Node<T>>, i: nat, j: nat, n: nat)
    requires n <= |nodes|
  {
    && 2 * i + 1 < n
    && j == if 2 * i + 2 < n && less(nodes[2 * i + 2].value, nodes[2 * i + 1].value) then 2 * i + 2 else 2 * i + 1
  }

  lemma SwapKeepsOrderAbove<T(!new)>(less: (T, T) -> bool, nodes: seq<Node<T>>, i: nat, j: nat, n: nat)
    requires WeakOrder(less) && n <= |nodes| && PickedChild(less, nodes, i, j, n)
    requires OrderedAbove(less, nodes, i, n) && less(nodes[j].value, nodes[i].value)
    ensures OrderedAbove(less, Swapped(nodes, i, j), j, n)
  {
    var after := Swapped(nodes, i, j);
    forall k | 1 <= k < n && Parent(k) != j ensures Fits(less, after, k) {
      if Parent(k) == i {
        assert k == 2 * i + 1 || k == 2 * i + 2;
        assert after[i] == nodes[j];
      } else if k != i {
        assert Fits(less, nodes, k);
      }
    }
    forall k | 1 <= k < n && Parent(k) == j ensures !less(after[k].value, after[Parent(j)].value) {
      assert Fits(less, nodes, k);
    }
  }

  lemma OrderedWhenSettled<T(!new)>(less: (T, T) -> bool, nodes: seq<Node<T>>, i: nat, n: nat)
    requires WeakOrder(less) && i < n <= |nodes| && OrderedAbove(less, nodes, i, n)
    requires 2 * i + 1 < n ==>
              exists j: nat :: PickedChild(less, nodes, i, j, n) && j < n && !less(nodes[j].value, nodes[i].value)
    ensures Ordered(less, nodes[..n])
  {
    forall k | 1 <= k < n ensures Fits(less, nodes[..n], k) {
      if Parent(k) == i {
        assert k == 2 * i + 1 || k == 2 * i + 2;
      } else {
        assert Fits(less, nodes, k);
      }
    }
  }
}
