/** PriorityTaskQueue of core/queue.go: a heap of sequence-numbered items that
    behaves like a stable sort by descending priority. */
module PriorityQueue {
  import opened TaskItems
  import opened Heaps

  datatype Entry = Entry(item: TaskItem, sequence: int)

  /** priorityHeap.Less */
  predicate Before(a: Entry, b: Entry)
  {
    if a.item.traits.priority > b.item.traits.priority then true
    else if a.item.traits.priority < b.item.traits.priority then false
    else a.sequence < b.sequence
  }

  // ----- the specification: a list in push order -----

  /** Where the next item to leave stands: the earliest of the highest priority. */
  function First(items: seq<TaskItem>): (k: nat)
    requires items != []
    ensures k < |items|
  {
    if |items| == 1 then 0
    else
      var k := First(items[..|items| - 1]);
      if items[|items| - 1].traits.priority > items[k].traits.priority then |items| - 1 else k
  }

  lemma {:induction false} FirstIsHighestAndEarliest(items: seq<TaskItem>)
    requires items != []
    ensures var k := First(items);
            && (forall i :: 0 <= i < |items| ==> items[i].traits.priority <= items[k].traits.priority)
            && (forall i :: 0 <= i < k ==> items[i].traits.priority < items[k].traits.priority)
  {
    if |items| > 1 {
      FirstIsHighestAndEarliest(items[..|items| - 1]);
    }
  }

  lemma FirstIsUnique(items: seq<TaskItem>, k: nat)
    requires k < |items|
    requires forall i :: 0 <= i < |items| ==> items[i].traits.priority <= items[k].traits.priority
    requires forall i :: 0 <= i < k ==> items[i].traits.priority < items[k].traits.priority
    ensures First(items) == k
  {
    FirstIsHighestAndEarliest(items);
    var f := First(items);
    assert items[f].traits.priority == items[k].traits.priority;
  }

  function Without<T>(s: seq<T>, k: nat): (r: seq<T>)
    requires k < |s|
    ensures |r| == |s| - 1
  {
    s[..k] + s[k + 1..]
  }

  /** The first n items to leave. */
  function Popped(items: seq<TaskItem>, n: nat): (batch: seq<TaskItem>)
    requires n <= |items|
    ensures |batch| == n
    decreases n
  {
    if n == 0 then [] else [items[First(items)]] + Popped(Without(items, First(items)), n - 1)
  }

  /** What stays behind, still in push order. */
  function Left(items: seq<TaskItem>, n: nat): (rest: seq<TaskItem>)
    requires n <= |items|
    ensures |rest| == |items| - n
    decreases n
  {
    if n == 0 then items else Left(Without(items, First(items)), n - 1)
  }

  lemma Assoc<T>(a: seq<T>, b: seq<T>, c: seq<T>)
    ensures a + (b + c) == (a + b) + c
  {
  }

  lemma PoppedStep(items: seq<TaskItem>, n: nat)
    requires n < |items|
    ensures Popped(items, n + 1) == [items[First(items)]] + Popped(Without(items, First(items)), n)
    ensures Left(items, n + 1) == Left(Without(items, First(items)), n)
  {
  }

  lemma PoppedNone(items: seq<TaskItem>)
    ensures Popped(items, 0) == [] && Left(items, 0) == items
  {
  }

  /** Popping m and then n is popping m + n: PopUpTo(k) is k calls of Pop. */
  lemma {:induction false} PopInParts(items: seq<TaskItem>, m: nat, n: nat)
    requires m + n <= |items|
    ensures Popped(items, m + n) == Popped(items, m) + Popped(Left(items, m), n)
    ensures Left(items, m + n) == Left(Left(items, m), n)
    decreases m
  {
    hide First, Without, Popped, Left;
    PoppedNone(items);
    if m > 0 {
      var x, w := [items[First(items)]], Without(items, First(items));
      PopInParts(w, m - 1, n);
      var a, b := Popped(w, m - 1), Popped(Left(w, m - 1), n);
      assert Popped(items, m) == x + a && Left(items, m) == Left(w, m - 1) by { PoppedStep(items, m - 1); }
      assert Popped(items, m + n) == x + (a + b) by { PoppedStep(items, m + n - 1); }
      Assoc(x, a, b);
      assert Left(items, m + n) == Left(w, m + n - 1) by { PoppedStep(items, m + n - 1); }
    }
  }

  function HeadOfPriority(items: seq<TaskItem>, p: int): seq<TaskItem>
    requires items != []
  {
    if items[0].traits.priority == p then [items[0]] else []
  }

  function OfPriority(items: seq<TaskItem>, p: int): seq<TaskItem>
  {
    if items == [] then [] else HeadOfPriority(items, p) + OfPriority(items[1..], p)
  }

  lemma OfPriorityStep(items: seq<TaskItem>, p: int)
    requires items != []
    ensures OfPriority(items, p) == HeadOfPriority(items, p) + OfPriority(items[1..], p)
  {
  }

  lemma {:induction false} OfPriorityConcat(a: seq<TaskItem>, b: seq<TaskItem>, p: int)
    ensures OfPriority(a + b, p) == OfPriority(a, p) + OfPriority(b, p)
  {
    if a == [] {
      assert a + b == b;
    } else {
      assert (a + b)[1..] == a[1..] + b;
      OfPriorityConcat(a[1..], b, p);
      OfPriorityStep(a, p);
      OfPriorityStep(a + b, p);
      hide OfPriority;
      Assoc(HeadOfPriority(a, p), OfPriority(a[1..], p), OfPriority(b, p));
    }
  }

  lemma {:induction false} NoneOfPriority(a: seq<TaskItem>, p: int)
    requires forall i :: 0 <= i < |a| ==> a[i].traits.priority != p
    ensures OfPriority(a, p) == []
  {
    if a != [] {
      NoneOfPriority(a[1..], p);
    }
  }

  lemma Commute<T>(l: seq<T>, x: seq<T>, r: seq<T>)
    requires l == [] || x == []
    ensures x + (l + r) == l + (x + r)
  {
    assert [] + r == r && [] + (l + r) == l + r && [] + (x + r) == x + r;
  }

  lemma OneOfPriority(x: TaskItem, p: int)
    ensures OfPriority([x], p) == if x.traits.priority == p then [x] else []
  {
  }

  /** Taking the first item out first does not change the order within a priority. */
  lemma FirstKeepsOrder(items: seq<TaskItem>, p: int)
    requires items != []
    ensures OfPriority([items[First(items)]] + Without(items, First(items)), p) == OfPriority(items, p)
  {
    var k := First(items);
    var x, l, r := items[k], items[..k], items[k + 1..];
    FirstIsHighestAndEarliest(items);
    hide OfPriority, First;
    assert items == l + ([x] + r);
    if p == x.traits.priority {
      NoneOfPriority(l, p);
    }
    OneOfPriority(x, p);
    Commute(OfPriority(l, p), OfPriority([x], p), OfPriority(r, p));
    OfPriorityConcat([x], l + r, p);
    OfPriorityConcat(l, r, p);
    OfPriorityConcat(l, [x] + r, p);
    OfPriorityConcat([x], r, p);
  }

  lemma {:induction false} DrainPermutes(items: seq<TaskItem>)
    ensures multiset(Popped(items, |items|)) == multiset(items)
    decreases |items|
  {
    if items != [] {
      var k := First(items);
      hide First, Left, Popped;
      var rest := Without(items, k);
      WithoutOne(items, k);
      hide Without;
      PoppedStep(items, |rest|);
      DrainPermutes(rest);
    }
  }

  lemma WithoutOne(items: seq<TaskItem>, k: nat)
    requires k < |items|
    ensures |Without(items, k)| == |items| - 1 && multiset(items) == multiset{items[k]} + multiset(Without(items, k))
  {
    assert items == items[..k] + ([items[k]] + items[k + 1..]);
  }

  lemma {:induction false} DrainDescends(items: seq<TaskItem>)
    ensures forall i, j :: 0 <= i < j < |items| ==>
              Popped(items, |items|)[i].traits.priority >= Popped(items, |items|)[j].traits.priority
    decreases |items|
  {
    if items != [] {
      var k := First(items);
      var rest := Without(items, k);
      var out := Popped(rest, |rest|);
      DrainDescends(rest);
      DrainPermutes(rest);
      FirstIsHighestAndEarliest(items);
      assert Popped(items, |items|) == [items[k]] + out;
      forall i | 0 <= i < |out| ensures out[i].traits.priority <= items[k].traits.priority {
        assert out[i] in multiset(out);
        assert out[i] in rest;
      }
    }
  }

  lemma {:induction false} DrainKeepsOrder(items: seq<TaskItem>, p: int)
    ensures OfPriority(Popped(items, |items|), p) == OfPriority(items, p)
    decreases |items|
  {
    if items != [] {
      var k := First(items);
      var rest := Without(items, k);
      DrainKeepsOrder(rest, p);
      FirstKeepsOrder(items, p);
      OfPriorityConcat([items[k]], rest, p);
      OfPriorityConcat([items[k]], Popped(rest, |rest|), p);
    }
  }

  /** Draining the queue is a stable sort: priorities never rise, and within each
      priority the items come out in push order. */
  lemma DrainIsStableSort(items: seq<TaskItem>)
    ensures forall i, j :: 0 <= i < j < |items| ==>
              Popped(items, |items|)[i].traits.priority >= Popped(items, |items|)[j].traits.priority
    ensures forall p :: OfPriority(Popped(items, |items|), p) == OfPriority(items, p)
    ensures multiset(Popped(items, |items|)) == multiset(items)
  {
    DrainDescends(items);
    DrainPermutes(items);
    forall p ensures OfPriority(Popped(items, |items|), p) == OfPriority(items, p) {
      DrainKeepsOrder(items, p);
    }
  }

  // ----- sequence numbers -----

  /** Within a priority, push order and sequence numbers agree. */
  ghost predicate Agrees(es: seq<Entry>)
  {
    forall i, j :: 0 <= i < j < |es| && es[i].item.traits.priority == es[j].item.traits.priority ==>
      es[i].sequence < es[j].sequence
  }

  /** Every queued number is below the next one, in push order. */
  ghost predicate Fresh(es: seq<Entry>, next: int)
  {
    && (forall i, j :: 0 <= i < j < |es| ==> es[i].sequence < es[j].sequence)
    && (forall i :: 0 <= i < |es| ==> es[i].sequence < next)
  }

  function ItemsOf(es: seq<Entry>): (items: seq<TaskItem>)
    ensures |items| == |es|
  {
    seq(|es|, i requires 0 <= i < |es| => es[i].item)
  }

  /** What heap.Pop takes out: an entry that Less puts behind no other. */
  ghost predicate IsLeast(es: seq<Entry>, k: nat)
  {
    k < |es| && forall i :: 0 <= i < |es| ==> !Before(es[i], es[k])
  }

  /** Every series of heap pops takes the items out in the stable order. */
  ghost predicate KeepsPushOrder(es: seq<Entry>)
    decreases |es|
  {
    forall k: nat :: IsLeast(es, k) ==> k == First(ItemsOf(es)) && KeepsPushOrder(Without(es, k))
  }

  /** An element that no other is Before is the stable choice. */
  lemma LeastIsFirst(es: seq<Entry>, k: nat)
    requires Agrees(es) && IsLeast(es, k)
    ensures First(ItemsOf(es)) == k
  {
    FirstIsUnique(ItemsOf(es), k);
  }

  lemma {:induction false} LeastExists(es: seq<Entry>) returns (k: nat)
    requires es != []
    ensures IsLeast(es, k)
    decreases |es|
  {
    var n := |es| - 1;
    if n == 0 {
      k := 0;
    } else {
      k := LeastExists(es[..n]);
      assert forall i :: 0 <= i < n ==> es[..n][i] == es[i];
      if Before(es[n], es[k]) {
        k := n;
      }
    }
  }

  /** With distinct numbers there is no choice. */
  lemma LeastIsUnique(es: seq<Entry>, j: nat, k: nat)
    requires IsLeast(es, j) && IsLeast(es, k)
    requires forall i, l :: 0 <= i < l < |es| ==> es[i].sequence != es[l].sequence
    ensures j == k
  {
    assert !Before(es[j], es[k]) && !Before(es[k], es[j]);
  }

  /** Pops follow push order, all the way down, if and only if the sequence numbers do:
      wherever they disagree some series of Pops takes a later item first. */
  lemma {:induction false} PopsKeepPushOrderIff(es: seq<Entry>)
    ensures KeepsPushOrder(es) <==> Agrees(es)
    decreases |es|
  {
    if Agrees(es) {
      forall k: nat | IsLeast(es, k) ensures k == First(ItemsOf(es)) && KeepsPushOrder(Without(es, k)) {
        LeastIsFirst(es, k);
        WithoutKeepsOrder(es, k, 0);
        PopsKeepPushOrderIff(Without(es, k));
      }
    } else {
      var i, j :| 0 <= i < j < |es| && es[i].item.traits.priority == es[j].item.traits.priority
                  && es[i].sequence >= es[j].sequence;
      var k := LeastExists(es);
      PopsKeepPushOrderIff(Without(es, k));
      DisagreementSurfaces(es, i, j, k);
    }
  }

  /** The entry at j is a later one with no larger number than i: either some pop now
      takes the wrong item, or both stay behind. */
  lemma {:induction false} DisagreementSurfaces(es: seq<Entry>, i: nat, j: nat, k: nat)
    requires i < j < |es| && es[i].item.traits.priority == es[j].item.traits.priority
    requires es[i].sequence >= es[j].sequence && IsLeast(es, k)
    requires Agrees(Without(es, k)) || !KeepsPushOrder(Without(es, k))
    ensures !KeepsPushOrder(es)
  {
    var items := ItemsOf(es);
    FirstIsHighestAndEarliest(items);
    assert items[i] == es[i].item && items[j] == es[j].item;
    if k == i {
      assert !Before(es[j], es[i]);
      assert IsLeast(es, j) && j != First(items);
    } else if k == j {
      assert IsLeast(es, j) && j != First(items);
    } else {
      var w := Without(es, k);
      var i', j' := if i < k then i else i - 1, if j < k then j else j - 1;
      assert w[i'] == es[i] && w[j'] == es[j];
      assert !Agrees(w);
    }
  }

  /** A push keeps the order right exactly when no queued item of its priority
      carries its sequence number or a larger one. */
  lemma PushAgreesIff(es: seq<Entry>, e: Entry)
    requires Agrees(es)
    ensures Agrees(es + [e]) <==>
              forall i :: 0 <= i < |es| && es[i].item.traits.priority == e.item.traits.priority ==>
                es[i].sequence < e.sequence
  {
    var t := es + [e];
    if Agrees(t) {
      forall i | 0 <= i < |es| && es[i].item.traits.priority == e.item.traits.priority
        ensures es[i].sequence < e.sequence
      {
        assert t[i] == es[i] && t[|es|] == e;
      }
    }
  }

  /** What that means for Pop: from a queue that pops in push order, a push keeps it so
      exactly under that condition. */
  lemma PushKeepsPushOrderIff(es: seq<Entry>, e: Entry)
    requires KeepsPushOrder(es)
    ensures KeepsPushOrder(es + [e]) <==>
              forall i :: 0 <= i < |es| && es[i].item.traits.priority == e.item.traits.priority ==>
                es[i].sequence < e.sequence
  {
    PopsKeepPushOrderIff(es);
    PopsKeepPushOrderIff(es + [e]);
    PushAgreesIff(es, e);
  }

  /** Two pushes of one priority around the wrap of the counter, on any queue: some
      series of Pops takes the later one first. */
  lemma WrapBreaksOrder(es: seq<Entry>, a: TaskItem, b: TaskItem)
    requires a.traits.priority == b.traits.priority
    ensures !KeepsPushOrder(es + [Entry(a, MAX_UINT64)] + [Entry(b, Incremented(MAX_UINT64))])
  {
    var t := es + [Entry(a, MAX_UINT64)] + [Entry(b, Incremented(MAX_UINT64))];
    PopsKeepPushOrderIff(t);
    assert t[|es|].item == a && t[|es| + 1].item == b;
    assert t[|es|].sequence > t[|es| + 1].sequence;
  }

  lemma WithoutKeepsOrder(es: seq<Entry>, k: nat, next: int)
    requires k < |es|
    ensures Agrees(es) ==> Agrees(Without(es, k))
    ensures Fresh(es, next) ==> Fresh(Without(es, k), next)
  {
  }

  lemma FreshAgrees(es: seq<Entry>, next: int)
    requires Fresh(es, next)
    ensures Agrees(es)
  {
  }

  lemma TakenOut(items: seq<TaskItem>, k: nat, batch: seq<TaskItem>)
    requires k < |items|
    ensures multiset(batch) + multiset(items) == multiset(batch + [items[k]]) + multiset(Without(items, k))
  {
    assert items == items[..k] + ([items[k]] + items[k + 1..]);
  }

  lemma OneMorePopped(all: seq<TaskItem>, i: nat, items: seq<TaskItem>)
    requires i < |all|
    ensures items == Left(all, i) ==>
              && Popped(all, i + 1) == Popped(all, i) + [items[First(items)]]
              && Left(all, i + 1) == Without(items, First(items))
  {
    PopInParts(all, i, 1);
    if items == Left(all, i) {
      assert Popped(items, 1) == [items[First(items)]] + Popped(Without(items, First(items)), 0);
    }
  }

  /** uint64 ++ */
  function Incremented(n: int): int { (n + 1) % (MAX_UINT64 + 1) }

  lemma BeforeIsWeakOrder()
    ensures WeakOrder(Before)
  {
  }

  function EntriesOf(nodes: seq<Node<Entry>>): (es: seq<Entry>)
    ensures |es| == |nodes|
  {
    seq(|nodes|, i requires 0 <= i < |nodes| => nodes[i].value)
  }

  lemma WithoutMapped(nodes: seq<Node<Entry>>, k: nat)
    requires k < |nodes|
    ensures EntriesOf(Without(nodes, k)) == Without(EntriesOf(nodes), k)
    ensures ItemsOf(EntriesOf(Without(nodes, k))) == Without(ItemsOf(EntriesOf(nodes)), k)
    ensures multiset(nodes) == multiset(Without(nodes, k)) + multiset{nodes[k]}
    ensures ItemsOf(EntriesOf(nodes))[k] == nodes[k].value.item
  {
    assert nodes == nodes[..k] + ([nodes[k]] + nodes[k + 1..]);
  }

  lemma AppendMapped(nodes: seq<Node<Entry>>, n: Node<Entry>)
    ensures EntriesOf(nodes + [n]) == EntriesOf(nodes) + [n.value]
    ensures ItemsOf(EntriesOf(nodes + [n])) == ItemsOf(EntriesOf(nodes)) + [n.value.item]
  {
  }

  lemma MembersOfSum<T>(whole: seq<T>, part: seq<T>, x: T)
    requires multiset(whole) == multiset(part) + multiset{x}
    ensures forall n :: n in whole <==> n in part || n == x
  {
    assert forall n :: n in whole <==> n in multiset(whole);
    assert forall n :: n in part <==> n in multiset(part);
  }

  lemma PushStaysFresh(es: seq<Entry>, e: Entry)
    requires (Fresh(es, e.sequence) || es == []) && 0 <= e.sequence < MAX_UINT64
    ensures Fresh(es + [e], Incremented(e.sequence))
  {
  }

  class PriorityTaskQueue {
    var pq: Heap<Entry>
    var nextSequence: int
    ghost var line: seq<Node<Entry>>  // the queued nodes in push order

    ghost predicate Valid()
      reads this, pq, pq.nodes
    {
      && pq.Valid() && pq.less == Before
      && multiset(line) == multiset(pq.nodes)
      && 0 <= nextSequence <= MAX_UINT64
    }

    ghost function Entries(): seq<Entry>
      reads this
    {
      EntriesOf(line)
    }

    /** The queue's contents in push order. */
    ghost function Items(): seq<TaskItem>
      reads this
    {
      ItemsOf(Entries())
    }

    constructor ()
      ensures Valid() && Items() == [] && nextSequence == 0 && fresh(pq)
    {
      BeforeIsWeakOrder();
      pq := new Heap(Before);
      nextSequence := 0;
      line := [];
    }

    method PushWithID(t: Task, traits: TaskTraits, id: TaskID)
      requires Valid()
      modifies this, pq, pq.nodes
      ensures Valid() && pq == old(pq)
      ensures forall n :: n in pq.nodes ==> n in old(pq.nodes) || fresh(n)
      ensures Items() == old(Items()) + [TaskItem(t, traits, id)]
      ensures Entries() == old(Entries()) + [Entry(TaskItem(t, traits, id),
                if old(nextSequence) == MAX_UINT64 && old(Items()) == [] then 0 else old(nextSequence))]
      ensures nextSequence == Incremented(Entries()[|old(Entries())|].sequence)
      ensures old(Fresh(Entries(), nextSequence)) && !(old(nextSequence) == MAX_UINT64 && old(Items()) != []) ==>
                Fresh(Entries(), nextSequence)
    {
      hide EntriesOf, ItemsOf, Fresh, Agrees, Before;
      LineIsAsLong();
      ghost var entries := Entries();
      if nextSequence == MAX_UINT64 {
        if |pq.nodes| == 0 {
          nextSequence := 0;
        }
      }
      var e := Entry(TaskItem(t, traits, id), nextSequence);
      nextSequence := Incremented(nextSequence);
      PushEntry(e);
      if (Fresh(entries, e.sequence) || entries == []) && e.sequence < MAX_UINT64 {
        PushStaysFresh(entries, e);
      }
    }

    /** heap.Push of a new node. */
    method PushEntry(e: Entry)
      requires Valid()
      modifies this`line, pq, pq.nodes
      ensures Valid() && pq == old(pq)
      ensures forall n :: n in pq.nodes ==> n in old(pq.nodes) || fresh(n)
      ensures Entries() == old(Entries()) + [e] && Items() == old(Items()) + [e.item]
    {
      hide EntriesOf, ItemsOf, Fresh, Agrees, Before;
      ghost var nodes := pq.nodes;
      var item := new Node(e);
      AppendMapped(line, item);
      pq.Push(item);
      line := line + [item];
      MembersOfSum(pq.nodes, nodes, item);
    }

    lemma LineIsAsLong()
      requires Valid()
      ensures |line| == |pq.nodes|
    {
      assert |multiset(line)| == |multiset(pq.nodes)|;
    }

    /** The slot of the popped node in push order. */
    lemma Locate(x: Node<Entry>) returns (k: nat)
      requires Valid() && x in pq.nodes && forall n :: n in pq.nodes ==> !Before(n.value, x.value)
      ensures k < |line| && line[k] == x && IsLeast(Entries(), k)
      ensures Agrees(Entries()) ==> k == First(Items())
    {
      assert x in multiset(line);
      k :| 0 <= k < |line| && line[k] == x;
      forall i | 0 <= i < |line| ensures !Before(Entries()[i], Entries()[k]) {
        assert line[i] in multiset(pq.nodes);
      }
      if Agrees(Entries()) {
        LeastIsFirst(Entries(), k);
      }
    }

    /** Takes out one least node: from slot k of the line, which is the stable
        choice as long as sequence numbers and push order agree. */
    method PopNode() returns (x: TaskItem, ghost k: nat)
      requires Valid() && line != []
      modifies this, pq, pq.nodes
      ensures Valid() && pq == old(pq) && nextSequence == old(nextSequence)
      ensures forall n :: n in pq.nodes ==> n in old(pq.nodes)
      ensures IsLeast(old(Entries()), k) && k < |old(line)| && x == old(Items())[k]
      ensures Items() == Without(old(Items()), k) && Entries() == Without(old(Entries()), k)
      ensures old(Agrees(Entries())) ==> k == First(old(Items()))
    {
      hide EntriesOf, ItemsOf, Fresh, Agrees, Before, First, Without, IsLeast;
      LineIsAsLong();
      ghost var nodes := pq.nodes;
      NothingBelowRoot(pq.less, nodes);
      k := Locate(nodes[0]);
      WithoutMapped(line, k);
      var node := pq.Pop();
      x := node.value.item;
      line := Without(line, k);
      assert multiset(pq.nodes) == multiset(nodes) - multiset{node} == multiset(line);
      MembersOfSum(nodes, pq.nodes, node);
    }

    /** Pop takes out exactly one queued item, one that Less puts behind no other; as
        long as the numbers follow push order it is the earliest of the highest priority. */
    method Pop() returns (r: Option<TaskItem>)
      requires Valid()
      modifies this, pq, pq.nodes
      ensures Valid() && pq == old(pq) && nextSequence == old(nextSequence)
      ensures forall n :: n in pq.nodes ==> n in old(pq.nodes)
      ensures r.None? <==> old(Items()) == []
      ensures r.None? ==> Items() == []
      ensures r.Some? ==> exists k: nat :: IsLeast(old(Entries()), k) && r.value == old(Items())[k]
                                      && Items() == Without(old(Items()), k) && Entries() == Without(old(Entries()), k)
      ensures r.Some? && old(Agrees(Entries())) ==>
                r.value == old(Items())[First(old(Items()))] && Items() == Without(old(Items()), First(old(Items())))
      ensures old(Agrees(Entries())) ==> Agrees(Entries())
      ensures old(Fresh(Entries(), nextSequence)) ==> Fresh(Entries(), nextSequence)
    {
      hide IsLeast, First, Without, Agrees, Fresh;
      LineIsAsLong();
      if |pq.nodes| == 0 {
        return None;
      }
      ghost var entries := Entries();
      var x, k := PopNode();
      r := Some(x);
      WithoutKeepsOrder(entries, k, nextSequence);
    }

    /** PopUpTo(max) is min(max, length) Pops. */
    method PopUpTo(max: nat) returns (batch: seq<TaskItem>)
      requires Valid()
      modifies this, pq, pq.nodes
      ensures Valid() && pq == old(pq) && nextSequence == old(nextSequence)
      ensures |batch| == if max < |old(Items())| then max else |old(Items())|
      ensures multiset(old(Items())) == multiset(batch) + multiset(Items())
      ensures old(Agrees(Entries())) ==>
                Agrees(Entries()) && batch == Popped(old(Items()), |batch|) && Items() == Left(old(Items()), |batch|)
      ensures old(Fresh(Entries(), nextSequence)) ==> Fresh(Entries(), nextSequence)
    {
      hide Agrees, Fresh, First, Popped, Left, EntriesOf, ItemsOf, Without;
      LineIsAsLong();
      PoppedNone(old(Items()));
      var count := |pq.nodes|;
      if count == 0 {
        return [];
      }
      if count > max {
        count := max;
      }
      batch := [];
      for i := 0 to count
        invariant Valid() && pq == old(pq) && nextSequence == old(nextSequence)
        invariant forall j :: 0 <= j < |pq.nodes| ==> pq.nodes[j] in old(pq.nodes)
        invariant |batch| == i && count <= |old(Items())| == i + |Items()|
        invariant multiset(old(Items())) == multiset(batch) + multiset(Items())
        invariant old(Agrees(Entries())) ==>
                    Agrees(Entries()) && batch == Popped(old(Items()), i) && Items() == Left(old(Items()), i)
        invariant old(Fresh(Entries(), nextSequence)) ==> Fresh(Entries(), nextSequence)
      {
        ghost var nodes, items, entries := pq.nodes, Items(), Entries();
        var x, k := PopNode();
        forall j | 0 <= j < |pq.nodes| ensures pq.nodes[j] in old(pq.nodes) {
          assert pq.nodes[j] in nodes;
        }
        WithoutKeepsOrder(entries, k, nextSequence);
        OneMorePopped(old(Items()), i, items);
        TakenOut(items, k, batch);
        batch := batch + [x];
      }
    }

    /** PeekTraits agrees with the next Pop. */
    method PeekTraits() returns (r: Option<TaskTraits>)
      requires Valid()
      ensures r.None? <==> Items() == []
      ensures r.Some? && Agrees(Entries()) ==> r.value == Items()[First(Items())].traits
    {
      LineIsAsLong();
      if |pq.nodes| == 0 {
        return None;
      }
      NothingBelowRoot(pq.less, pq.nodes);
      ghost var k := Locate(pq.nodes[0]);
      r := Some(pq.nodes[0].value.item.traits);
    }

    method Clear()
      requires Valid()
      modifies this
      ensures Valid() && Items() == [] && nextSequence == 0 && fresh(pq)
    {
      BeforeIsWeakOrder();
      pq := new Heap(Before);
      nextSequence := 0;
      line := [];
    }
  }

  lemma LastOut<T>(s: seq<T>, x: T)
    ensures Without(s + [x], |s|) == s
  {
  }

  lemma OnlyLastIsLeast(es: seq<Entry>, a: Entry, b: Entry, k: nat)
    requires a.item.traits.priority == b.item.traits.priority && b.sequence < a.sequence
    requires forall i :: 0 <= i < |es| ==> es[i].item.traits.priority < b.item.traits.priority
    requires IsLeast(es + [a] + [b], k)
    ensures k == |es| + 1
  {
    var t := es + [a] + [b];
    assert t[|es|] == a && t[|es| + 1] == b;
    assert forall i :: 0 <= i < |es| ==> t[i] == es[i] && Before(b, t[i]);
    assert Before(b, t[|es|]);
  }

  /** The least of a queue whose last two items were pushed around the wrap is the last. */
  lemma LaterLeaves(es: seq<Entry>, was: seq<TaskItem>, a: TaskItem, b: TaskItem, out: TaskItem, left: seq<TaskItem>)
    requires |es| == |was| && forall i :: 0 <= i < |es| ==> es[i].item == was[i]
    requires forall i :: 0 <= i < |was| ==> was[i].traits.priority < b.traits.priority
    requires a.traits.priority == b.traits.priority
    requires exists k: nat :: IsLeast(es + [Entry(a, MAX_UINT64)] + [Entry(b, 0)], k)
                              && out == (was + [a] + [b])[k] && left == Without(was + [a] + [b], k)
    ensures out == b && left == was + [a]
  {
    var x, y := Entry(a, MAX_UINT64), Entry(b, 0);
    var k: nat :| IsLeast(es + [x] + [y], k) && out == (was + [a] + [b])[k] && left == Without(was + [a] + [b], k);
    OnlyLastIsLeast(es, x, y, k);
    LastOut(was + [a], b);
  }

  method PushAroundWrap(q: PriorityTaskQueue, traits: TaskTraits, a: Task, idA: TaskID, b: Task, idB: TaskID)
    requires q.Valid() && q.nextSequence == MAX_UINT64 && q.Items() != []
    modifies q, q.pq, q.pq.nodes
    ensures q.Valid() && q.pq == old(q.pq)
    ensures forall j :: 0 <= j < |q.pq.nodes| ==> q.pq.nodes[j] in old(q.pq.nodes) || fresh(q.pq.nodes[j])
    ensures q.Entries() == old(q.Entries()) + [Entry(TaskItem(a, traits, idA), MAX_UINT64)]
                           + [Entry(TaskItem(b, traits, idB), 0)]
    ensures q.Items() == old(q.Items()) + [TaskItem(a, traits, idA)] + [TaskItem(b, traits, idB)]
  {
    hide Fresh, Agrees;
    q.PushWithID(a, traits, idA);
    assert forall j :: 0 <= j < |q.pq.nodes| ==> q.pq.nodes[j] in old(q.pq.nodes) || fresh(q.pq.nodes[j]);
    q.PushWithID(b, traits, idB);
    assert forall j :: 0 <= j < |q.pq.nodes| ==> q.pq.nodes[j] in old(q.pq.nodes) || fresh(q.pq.nodes[j]);
  }

  /** Around the wrap, on the queue itself: with the counter at MaxUint64 and something
      of lower priority queued, two pushes of one priority and a Pop give the later one. */
  method PopAroundWrap(q: PriorityTaskQueue, traits: TaskTraits, a: Task, idA: TaskID, b: Task, idB: TaskID)
    returns (r: Option<TaskItem>)
    requires q.Valid() && q.nextSequence == MAX_UINT64 && q.Items() != []
    requires forall i :: 0 <= i < |q.Items()| ==> q.Items()[i].traits.priority < traits.priority
    modifies q, q.pq, q.pq.nodes
    ensures q.Valid() && r == Some(TaskItem(b, traits, idB))
    ensures q.Items() == old(q.Items()) + [TaskItem(a, traits, idA)]
  {
    hide Fresh, Agrees, First, Without, IsLeast;
    ghost var es, was := q.Entries(), q.Items();
    assert forall i :: 0 <= i < |es| ==> es[i].item == was[i];
    PushAroundWrap(q, traits, a, idA, b, idB);
    ghost var items := q.Items();
    r := q.Pop();
    LaterLeaves(es, was, TaskItem(a, traits, idA), TaskItem(b, traits, idB), r.value, q.Items());
  }
}
