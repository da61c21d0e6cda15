/** FIFOTaskQueue of core/queue.go: a Go slice that is resliced by Pop, grown by
    append and compacted in between. */
module FifoQueue {
  import opened TaskItems

  /** What PopUpTo returns: nil, or a slice of some backing array. */
  datatype Batch = Nil | Slice(arr: array<TaskItem>, lo: nat, hi: nat)

  function Max(a: nat, b: nat): nat { if a > b then a else b }

  predicate Compacts(n: nat, c: nat) { c >= COMPACT_MIN_CAP && n > 0 && n * COMPACT_SHRINK_FACTOR < c }

  /** The capacity maybeCompactLocked leaves behind for n items in capacity c. */
  function CompactedCap(n: nat, c: nat): nat
  {
    if c < COMPACT_MIN_CAP then c
    else if n == 0 then DEFAULT_QUEUE_CAP
    else if n * COMPACT_SHRINK_FACTOR >= c then c
    else Max(Max(c / 2, DEFAULT_QUEUE_CAP), n)
  }

  /** A compaction frees at least twice as much capacity as it copies items. */
  lemma CompactionPays(n: nat, c: nat)
    requires n <= c
    ensures n <= CompactedCap(n, c) <= c
    ensures Compacts(n, c) ==> 2 * n <= c - CompactedCap(n, c)
    ensures CompactedCap(CompactedCap(n, c), CompactedCap(n, c)) == CompactedCap(n, c) || n == 0
  {
  }

  /** A compaction keeps at most half the capacity, and of an empty queue the default. */
  lemma CompactionHalves(n: nat, c: nat)
    requires n <= c
    ensures Compacts(n, c) ==> 2 * CompactedCap(n, c) <= c
    ensures c >= COMPACT_MIN_CAP && n == 0 ==> CompactedCap(n, c) == DEFAULT_QUEUE_CAP
    ensures CompactedCap(n, c) == c ==> c < COMPACT_MIN_CAP || c <= COMPACT_SHRINK_FACTOR * n
  {
  }

  // ----- what compaction costs over a run -----

  /** The slice seen as numbers: length, capacity, items copied by compactions so
      far, capacity gained by append and Clear so far. */
  datatype Cost = Cost(size: nat, cap: nat, copied: nat, allotted: nat)

  /** grown is the capacity that append's growth policy would choose. */
  datatype Op = PushOp(grown: nat) | PopOp | PopUpToOp(max: nat) | CompactOp | ClearOp

  function Compacted(c: Cost): Cost
  {
    c.(cap := CompactedCap(c.size, c.cap), copied := c.copied + if Compacts(c.size, c.cap) then c.size else 0)
  }

  function Charge(c: Cost, op: Op): Cost
  {
    match op
    case PushOp(grown) =>
      if c.size < c.cap then c.(size := c.size + 1)
      else
        var cap := Max(grown, c.size + 1);
        c.(size := c.size + 1, cap := cap, allotted := c.allotted + if cap > c.cap then cap - c.cap else 0)
    case PopOp =>
      if c.size == 0 || c.cap == 0 then c else Compacted(c.(size := c.size - 1, cap := c.cap - 1))
    case PopUpToOp(max) =>
      if c.size <= max then c.(size := 0)
      else if c.cap < max then c
      else Compacted(c.(size := c.size - max, cap := c.cap - max))
    case CompactOp => Compacted(c)
    case ClearOp =>
      c.(size := 0, cap := DEFAULT_QUEUE_CAP,
         allotted := c.allotted + if c.cap < DEFAULT_QUEUE_CAP then DEFAULT_QUEUE_CAP - c.cap else 0)
  }

  /** The costs after a run of operations on a new queue. */
  function CostOf(ops: seq<Op>): Cost
  {
    if ops == [] then Cost(0, DEFAULT_QUEUE_CAP, 0, 0) else Charge(CostOf(ops[..|ops| - 1]), ops[|ops| - 1])
  }

  lemma CostOfMore(ops: seq<Op>, op: Op)
    ensures CostOf(ops + [op]) == Charge(CostOf(ops), op)
  {
    assert (ops + [op])[..|ops|] == ops;
  }

  /** Amortised cost: over any run of any operations, twice the items copied by
      compaction plus the present capacity is at most the initial capacity and what
      append and Clear have added, for any growth policy. */
  lemma {:induction false} CopiesArePaidFor(ops: seq<Op>)
    ensures var c := CostOf(ops); c.size <= c.cap && 2 * c.copied + c.cap <= DEFAULT_QUEUE_CAP + c.allotted
  {
    if ops != [] {
      var c, op := CostOf(ops[..|ops| - 1]), ops[|ops| - 1];
      CopiesArePaidFor(ops[..|ops| - 1]);
      if op.PopOp? && c.size > 0 {
        CompactionPays(c.size - 1, c.cap - 1);
      } else if op.PopUpToOp? && c.size > op.max {
        CompactionPays(c.size - op.max, c.cap - op.max);
      } else if op.CompactOp? {
        CompactionPays(c.size, c.cap);
      }
    }
  }

  /** Too small to compact, or used to a quarter at least. */
  predicate Tight(c: Cost) { c.cap < COMPACT_MIN_CAP || c.cap <= COMPACT_SHRINK_FACTOR * c.size }

  /** No capacity is kept for ever: after any run of operations, repeated compactions
      come to a capacity below the minimum or of at most four times the length, and
      leave the length alone. */
  lemma {:induction false} CompactionsTighten(ops: seq<Op>) returns (times: nat)
    ensures var c := CostOf(ops + seq(times, _ => CompactOp)); Tight(c) && c.size == CostOf(ops).size
    decreases CostOf(ops).cap
  {
    var c := CostOf(ops);
    CopiesArePaidFor(ops);
    if Tight(c) {
      times := 0;
      assert ops + seq(0, _ => CompactOp) == ops;
    } else {
      CompactionHalves(c.size, c.cap);
      CostOfMore(ops, CompactOp);
      hide CostOf;
      var more := CompactionsTighten(ops + [CompactOp]);
      times := more + 1;
      assert ops + seq(times, _ => CompactOp) == ops + [CompactOp] + seq(more, _ => CompactOp);
    }
  }

  lemma SplitAt<T>(s: seq<T>, k: nat)
    requires k <= |s|
    ensures s[..k] + s[k..] == s
  {
  }

  /** The copy builtin. */
  method Copy(dst: array<TaskItem>, src: array<TaskItem>, from: nat, n: nat)
    requires dst != src && n <= dst.Length && from + n <= src.Length
    modifies dst
    ensures dst[..n] == src[from..from + n] && dst[n..] == old(dst[n..])
  {
    for i := 0 to n
      invariant forall j :: 0 <= j < i ==> dst[j] == src[from + j]
      invariant forall j :: i <= j < dst.Length ==> dst[j] == old(dst[j])
    {
      dst[i] := src[from + i];
    }
  }

  method ZeroOut(arr: array<TaskItem>, from: nat, n: nat)
    requires from + n <= arr.Length
    modifies arr
    ensures forall j :: from <= j < from + n ==> arr[j] == ZERO_ITEM
    ensures forall j :: 0 <= j < arr.Length && !(from <= j < from + n) ==> arr[j] == old(arr[j])
  {
    for i := 0 to n
      invariant forall j :: from <= j < from + i ==> arr[j] == ZERO_ITEM
      invariant forall j :: 0 <= j < arr.Length && !(from <= j < from + i) ==> arr[j] == old(arr[j])
    {
      arr[from + i] := ZERO_ITEM;
    }
  }

  class FIFOTaskQueue {
    var tasks: array<TaskItem>   // the backing array
    var start: nat               // the slice is tasks[start..start + size]
    var size: nat
    const growth: nat -> nat     // append's choice of capacity, whatever it is
    ghost var copied: nat        // items copied by compactions so far
    ghost var allotted: nat      // capacity gained by append and Clear so far
    ghost var ops: seq<Op>       // the operations so far

    function Cap(): int
      reads this
    {
      tasks.Length - start
    }

    ghost predicate InBounds()
      reads this
    {
      start + size <= tasks.Length
    }

    ghost function Costs(): Cost
      requires InBounds()
      reads this
    {
      Cost(size, Cap(), copied, allotted)
    }

    /** The slice lies in its array and has cost what its operations cost. */
    ghost predicate Valid()
      reads this
    {
      InBounds() && Costs() == CostOf(ops)
    }

    ghost function Contents(): seq<TaskItem>
      requires InBounds()
      reads this, tasks
    {
      tasks[start..start + size]
    }

    constructor (growth: nat -> nat)
      ensures Valid() && Contents() == [] && fresh(tasks) && ops == []
    {
      this.growth := growth;
      tasks := new TaskItem[DEFAULT_QUEUE_CAP](_ => ZERO_ITEM);
      start, size, copied, allotted, ops := 0, 0, 0, 0, [];
    }

    /** append: in place while there is room, otherwise into a larger array. */
    method PushWithID(t: Task, traits: TaskTraits, id: TaskID)
      requires Valid()
      modifies this, tasks
      ensures Valid() && ops == old(ops) + [PushOp(growth(old(size) + 1))]
      ensures Contents() == old(Contents()) + [TaskItem(t, traits, id)]
      ensures old(size) < old(Cap()) ==>
                && tasks == old(tasks) && start == old(start)
                && forall j :: 0 <= j < tasks.Length && j != start + old(size) ==> tasks[j] == old(tasks[j])
      ensures old(size) == old(Cap()) ==> fresh(tasks)
    {
      hide CostOf;
      CostOfMore(ops, PushOp(growth(size + 1)));
      ops := ops + [PushOp(growth(size + 1))];
      if start + size == tasks.Length {
        Grow();
      }
      Place(TaskItem(t, traits, id));
    }

    /** append while there is room. */
    method Place(item: TaskItem)
      requires InBounds() && size < Cap()
      modifies this`size, tasks
      ensures InBounds() && size == old(size) + 1 && Contents() == old(Contents()) + [item]
      ensures forall j :: 0 <= j < tasks.Length && j != start + old(size) ==> tasks[j] == old(tasks[j])
    {
      tasks[start + size] := item;
      size := size + 1;
    }

    /** append on a full slice: a larger array with the same contents. */
    method Grow()
      requires InBounds() && size == Cap()
      modifies this`tasks, this`start, this`allotted
      ensures InBounds() && fresh(tasks) && Contents() == old(Contents())
      ensures Cap() == Max(growth(size + 1), size + 1) && allotted == old(allotted) + Cap() - old(Cap())
    {
      var c := Max(growth(size + 1), size + 1);
      var bigger := new TaskItem[c](_ => ZERO_ITEM);
      Copy(bigger, tasks, start, size);
      allotted := allotted + (c - (tasks.Length - start));
      tasks, start := bigger, 0;
    }

    method MaybeCompact()
      requires Valid()
      modifies this
      ensures Valid() && ops == old(ops) + [CompactOp] && Contents() == old(Contents())
      ensures tasks == old(tasks) || fresh(tasks)
    {
      CostOfMore(ops, CompactOp);
      ops := ops + [CompactOp];
      hide CostOf;
      MaybeCompactLocked();
    }

    /** Moves the contents to a smaller array when most of the capacity is unused. */
    method MaybeCompactLocked()
      requires InBounds()
      modifies this`tasks, this`start, this`copied
      ensures InBounds() && Contents() == old(Contents()) && Costs() == Compacted(old(Costs()))
      ensures tasks == old(tasks) || fresh(tasks)
    {
      var n := size;
      var c := tasks.Length - start;
      CompactionPays(n, c);
      if c < COMPACT_MIN_CAP {
        return;
      }
      if n == 0 {
        tasks := new TaskItem[DEFAULT_QUEUE_CAP](_ => ZERO_ITEM);
        start := 0;
        return;
      }
      if n * COMPACT_SHRINK_FACTOR >= c {
        return;
      }
      var newCap := Max(Max(c / 2, DEFAULT_QUEUE_CAP), n);
      var newSlice := new TaskItem[newCap](_ => ZERO_ITEM);
      Copy(newSlice, tasks, start, n);
      copied := copied + n;
      tasks, start := newSlice, 0;
    }

    /** Pop takes the front item and releases its slot. */
    method Pop() returns (r: Option<TaskItem>)
      requires Valid()
      modifies this, tasks
      ensures Valid() && ops == old(ops) + [PopOp]
      ensures r.None? <==> old(Contents()) == []
      ensures r.None? ==> Contents() == []
      ensures r.Some? ==> [r.value] + Contents() == old(Contents()) && old(tasks)[old(start)] == ZERO_ITEM
      ensures tasks == old(tasks) || fresh(tasks)
    {
      hide CostOf;
      CostOfMore(ops, PopOp);
      ops := ops + [PopOp];
      if size == 0 {
        return None;
      }
      var item := TakeFirst();
      hide Compacts, CompactedCap;
      MaybeCompactLocked();
      r := Some(item);
    }

    method TakeFirst() returns (item: TaskItem)
      requires InBounds() && size > 0
      modifies this`start, this`size, tasks
      ensures InBounds() && [item] + Contents() == old(Contents()) && tasks[old(start)] == ZERO_ITEM
      ensures size == old(size) - 1 && start == old(start) + 1
    {
      item := tasks[start];
      tasks[start] := ZERO_ITEM;
      start, size := start + 1, size - 1;
      assert Contents() == old(Contents())[1..];
    }

    /** PopUpTo takes the first min(max, length) items. Draining the queue hands out
        the backing array itself; otherwise the batch is a copy. */
    method PopUpTo(max: nat) returns (batch: Batch)
      requires Valid()
      modifies this, tasks
      ensures Valid() && ops == old(ops) + [PopUpToOp(max)]
      ensures batch.Nil? <==> old(Contents()) == []
      ensures batch.Nil? ==> Contents() == []
      ensures batch.Slice? ==>
                && batch.lo <= batch.hi <= batch.arr.Length
                && |batch.arr[batch.lo..batch.hi]| == (if max < |old(Contents())| then max else |old(Contents())|)
                && batch.arr[batch.lo..batch.hi] + Contents() == old(Contents())
      ensures batch.Slice? && |old(Contents())| <= max ==>
                && tasks == old(tasks) && start == old(start) && size == 0
                && batch.arr == tasks && batch.lo == start && batch.hi == start + |old(Contents())|
      ensures batch.Slice? && |old(Contents())| > max ==>
                fresh(batch.arr) && batch.arr != tasks &&
                forall i :: old(start) <= i < old(start) + max ==> old(tasks)[i] == ZERO_ITEM
      ensures tasks == old(tasks) || fresh(tasks)
    {
      hide CostOf, Compacts, CompactedCap;
      CostOfMore(ops, PopUpToOp(max));
      ops := ops + [PopUpToOp(max)];
      var n := size;
      if n == 0 {
        return Nil;
      }
      if n <= max {
        batch := HandOver();
        return;
      }
      var copy := TakeSome(max);
      batch := Slice(copy, 0, max);
      assert copy[0..max] == copy[..];
    }

    /** The branch of PopUpTo that drains the queue. */
    method HandOver() returns (batch: Batch)
      requires InBounds()
      modifies this`size
      ensures InBounds() && size == 0 && batch == Slice(tasks, start, start + old(size))
      ensures batch.arr[batch.lo..batch.hi] == old(Contents()) && Contents() == []
    {
      batch := Slice(tasks, start, start + size);
      size := 0;
    }

    /** The branch that leaves items behind. */
    method TakeSome(max: nat) returns (copy: array<TaskItem>)
      requires InBounds() && max < size
      modifies this`start, this`size, this`tasks, this`copied, tasks
      ensures InBounds() && fresh(copy) && copy.Length == max && copy != tasks
              && copy[..] + Contents() == old(Contents())
      ensures Costs() == Compacted(old(Costs()).(size := old(size) - max, cap := old(Cap()) - max))
      ensures forall i :: old(start) <= i < old(start) + max ==> old(tasks)[i] == ZERO_ITEM
      ensures tasks == old(tasks) || fresh(tasks)
    {
      hide Compacts, CompactedCap;
      ghost var was := Contents();
      copy := TakeFront(max);
      SplitAt(was, max);
      MaybeCompactLocked();
      assert copy[..] == was[..max];
    }

    /** Copies out the first max items and releases their slots. */
    method TakeFront(max: nat) returns (copy: array<TaskItem>)
      requires InBounds() && max < size
      modifies this`start, this`size, tasks
      ensures InBounds() && fresh(copy) && copy[..] == old(Contents())[..max] && Contents() == old(Contents())[max..]
      ensures size == old(size) - max && start == old(start) + max
      ensures forall i :: old(start) <= i < old(start) + max ==> tasks[i] == ZERO_ITEM
    {
      copy := CopyFront(max);
      ReleaseFront(max);
    }

    method CopyFront(max: nat) returns (copy: array<TaskItem>)
      requires InBounds() && max < size
      ensures fresh(copy) && copy.Length == max && copy[..] == Contents()[..max]
    {
      copy := new TaskItem[max](_ => ZERO_ITEM);
      Copy(copy, tasks, start, max);
      assert copy[..] == copy[..max];
    }

    method ReleaseFront(max: nat)
      requires InBounds() && max < size
      modifies this`start, this`size, tasks
      ensures InBounds() && Contents() == old(Contents())[max..]
      ensures size == old(size) - max && start == old(start) + max
      ensures forall i :: old(start) <= i < old(start) + max ==> tasks[i] == ZERO_ITEM
    {
      ZeroOut(tasks, start, max);
      start, size := start + max, size - max;
    }

    method PeekTraits() returns (r: Option<TaskTraits>)
      requires Valid()
      ensures r.None? <==> Contents() == []
      ensures r.Some? ==> r.value == Contents()[0].traits
    {
      if size == 0 {
        return None;
      }
      r := Some(tasks[start].traits);
    }

    method Clear()
      requires Valid()
      modifies this
      ensures Valid() && ops == old(ops) + [ClearOp] && Contents() == [] && fresh(tasks)
    {
      CostOfMore(ops, ClearOp);
      ops := ops + [ClearOp];
      hide CostOf;
      allotted := allotted + if Cap() < DEFAULT_QUEUE_CAP then DEFAULT_QUEUE_CAP - Cap() else 0;
      tasks := new TaskItem[DEFAULT_QUEUE_CAP](_ => ZERO_ITEM);
      start, size := 0, 0;
    }
  }

  // ----- what becomes of a batch -----

  /** A call of the queue's interface. */
  datatype Call =
    | CallPush(t: Task, traits: TaskTraits, id: TaskID)
    | CallPop | CallPopUpTo(max: nat) | CallMaybeCompact | CallPeekTraits | CallClear

  /** Makes the call; the backing array stays or is new. */
  method Do(q: FIFOTaskQueue, call: Call)
    requires q.Valid()
    modifies q, q.tasks
    ensures q.Valid() && (q.tasks == old(q.tasks) || fresh(q.tasks))
  {
    match call
    case CallPush(t, traits, id) => q.PushWithID(t, traits, id);
    case CallPop => var r := q.Pop();
    case CallPopUpTo(max) => var batch := q.PopUpTo(max);
    case CallMaybeCompact => q.MaybeCompact();
    case CallPeekTraits => var r := q.PeekTraits();
    case CallClear => q.Clear();
  }

  method DoAll(q: FIFOTaskQueue, calls: seq<Call>)
    requires q.Valid()
    modifies q, q.tasks
    ensures q.Valid() && (q.tasks == old(q.tasks) || fresh(q.tasks))
  {
    for i := 0 to |calls|
      invariant q.Valid() && (q.tasks == old(q.tasks) || fresh(q.tasks))
    {
      Do(q, calls[i]);
    }
  }

  /** A batch that left items behind keeps its contents whatever is called afterwards. */
  method AnythingAfterBatch(q: FIFOTaskQueue, max: nat, calls: seq<Call>) returns (batch: Batch)
    requires q.Valid() && q.size > max
    modifies q, q.tasks
    ensures batch.Slice? && batch.lo <= batch.hi <= batch.arr.Length
    ensures batch.arr[batch.lo..batch.hi] == old(q.Contents())[..max]
  {
    ghost var all := q.Contents();
    batch := q.PopUpTo(max);
    ghost var was := batch.arr[batch.lo..batch.hi];
    assert was == (was + q.Contents())[..|was|] == all[..max];
    DoAll(q, calls);
    assert batch.arr[batch.lo..batch.hi] == was;
  }

  /** The contents of a batch after items have been written over its front. */
  function Overwritten(was: seq<TaskItem>, items: seq<TaskItem>): (now: seq<TaskItem>)
    ensures |now| == |was|
    ensures forall j :: 0 <= j < |was| ==> now[j] == if j < |items| then items[j] else was[j]
  {
    if |items| <= |was| then items + was[|items|..] else items[..|was|]
  }

  /** A batch that drained the queue is overwritten from its front by the pushes that
      follow, as long as the array has room. */
  method PushesAfterDrain(q: FIFOTaskQueue, max: nat, items: seq<TaskItem>) returns (batch: Batch)
    requires q.Valid() && 0 < q.size <= max && |items| <= q.Cap()
    modifies q, q.tasks
    ensures batch.Slice? && batch.lo <= batch.hi <= batch.arr.Length
    ensures batch.arr[batch.lo..batch.hi] == Overwritten(old(q.Contents()), items)
  {
    hide CostOf, Overwritten;
    ghost var all := q.Contents();
    batch := q.PopUpTo(max);
    ghost var was := batch.arr[batch.lo..batch.hi];
    assert was + q.Contents() == all && q.Contents() == [];
    PushAll(q, items);
    assert forall j :: 0 <= j < |was| ==> batch.arr[batch.lo + j] == if j < |items| then items[j] else was[j];
  }

  /** Pushes into an array with room for all. */
  method PushAll(q: FIFOTaskQueue, items: seq<TaskItem>)
    requires q.Valid() && q.size + |items| <= q.Cap()
    modifies q, q.tasks
    ensures q.Valid() && q.tasks == old(q.tasks) && q.start == old(q.start)
    ensures forall j :: 0 <= j < |items| ==> q.tasks[q.start + old(q.size) + j] == items[j]
    ensures forall j :: 0 <= j < q.tasks.Length && !(q.start + old(q.size) <= j < q.start + old(q.size) + |items|) ==>
              q.tasks[j] == old(q.tasks[j])
  {
    hide CostOf;
    ghost var first := q.start + q.size;
    for i := 0 to |items|
      invariant q.Valid() && q.tasks == old(q.tasks) && q.start == old(q.start) && q.size == old(q.size) + i
      invariant forall j :: 0 <= j < i ==> q.tasks[first + j] == items[j]
      invariant forall j :: 0 <= j < q.tasks.Length && !(first <= j < first + i) ==> q.tasks[j] == old(q.tasks[j])
    {
      q.PushWithID(items[i].task, items[i].traits, items[i].id);
    }
  }

  /** So a draining batch does not survive a push of anything but its own first item. */
  method PushAfterDrain(q: FIFOTaskQueue, max: nat, item: TaskItem) returns (batch: Batch)
    requires q.Valid() && 0 < q.size <= max
    modifies q, q.tasks
    ensures batch.Slice? && batch.lo <= batch.hi <= batch.arr.Length
    ensures batch.arr[batch.lo..batch.hi] == [item] + old(q.Contents())[1..]
    ensures batch.arr[batch.lo..batch.hi] == old(q.Contents()) <==> item == old(q.Contents())[0]
  {
    batch := PushesAfterDrain(q, max, [item]);
  }
}
