/** DelayManager (core/delay_manager.go): a heap of delayed tasks, a timer goroutine
    and a wakeup channel of capacity one. Time is an integer that never decreases. */
module DelayManagers {
  import opened Runs
  import opened Heaps

  /** A delayed task; id tells apart tasks that run at the same time. */
  datatype DelayedTask = DelayedTask(runAt: int, id: nat)

  /** DelayedTaskHeap.Less */
  predicate Earlier(a: DelayedTask, b: DelayedTask) { a.runAt < b.runAt }

  const THOUSAND_HOURS: nat := 1000 * 3600 * 1_000_000_000

  datatype LoopPc =
    | Calculate                                              // about to call calculateNextRun
    | Arm(deadline: int, calculated: int)                    // about to reset the timer
    | Select(deadline: int, calculated: int, armed: int)     // blocked in the select
    | Expire                                                 // about to lock for processExpiredTasks
    | Posting(batch: seq<DelayedTask>)                       // outside the lock, these still to post
    | Exited

  datatype State = State(
    now: int,
    heap: multiset<DelayedTask>,
    wakeup: bool,
    cancelled: bool,
    loop: LoopPc,
    // history
    nextID: nat,
    added: multiset<DelayedTask>,
    posted: multiset<DelayedTask>,
    postedAt: map<DelayedTask, int>,
    discarded: multiset<DelayedTask>)

  datatype Event =
    | Tick(d: nat)
    | Add(delay: nat)
    | CalculateNextRun(root: seq<DelayedTask>)   // what Peek returned
    | ResetTimer | TimerFires | WakeUp | Quit
    | Collect(batch: seq<DelayedTask>)
    | PostOne | BatchDone
    | Cancel | ClearHeap

  function Init(): State
  {
    State(0, multiset{}, false, false, Calculate, 0, multiset{}, multiset{}, map[], multiset{})
  }

  /** root is empty exactly when the heap is, and otherwise holds one of its earliest tasks. */
  ghost predicate IsRoot(heap: multiset<DelayedTask>, root: seq<DelayedTask>)
  {
    if root == [] then heap == multiset{}
    else |root| == 1 && root[0] in heap && forall x :: x in heap ==> root[0].runAt <= x.runAt
  }

  /** batch is exactly the expired part of the heap, in non-decreasing RunAt order. */
  ghost predicate IsBatch(heap: multiset<DelayedTask>, now: int, batch: seq<DelayedTask>)
  {
    && multiset(batch) <= heap
    && (forall i :: 0 <= i < |batch| ==> batch[i].runAt <= now)
    && (forall i, j :: 0 <= i < j < |batch| ==> batch[i].runAt <= batch[j].runAt)
    && (forall x :: x in heap - multiset(batch) ==> x.runAt > now)
  }

  /** heap.Push leaves index 0 exactly when the new task is earlier than all others. */
  ghost predicate IsNewRoot(heap: multiset<DelayedTask>, t: DelayedTask)
  {
    forall x :: x in heap ==> t.runAt < x.runAt
  }

  /** The timer fires no sooner than the computed wait after it was reset. */
  function FireTime(pc: LoopPc): int
    requires pc.Select?
  {
    pc.armed + (pc.deadline - pc.calculated)
  }

  ghost predicate Enabled(s: State, e: Event)
  {
    match e
    case Tick(_) => true
    case Add(_) => true
    case CalculateNextRun(root) => s.loop.Calculate? && IsRoot(s.heap, root)
    case ResetTimer => s.loop.Arm?
    case TimerFires => s.loop.Select? && s.now >= FireTime(s.loop)
    case WakeUp => s.loop.Select? && s.wakeup
    case Quit => s.loop.Select? && s.cancelled
    case Collect(batch) => s.loop.Expire? && IsBatch(s.heap, s.now, batch)
    case PostOne => s.loop.Posting? && s.loop.batch != []
    case BatchDone => s.loop.Posting? && s.loop.batch == []
    case Cancel => true
    case ClearHeap => s.cancelled && s.loop.Exited?
  }

  ghost function Apply(s: State, e: Event): State
    requires Enabled(s, e)
  {
    match e
    case Tick(d) => s.(now := s.now + d)
    case Add(delay) =>
      var t := DelayedTask(s.now + delay, s.nextID);
      s.(heap := s.heap + multiset{t}, added := s.added + multiset{t}, nextID := s.nextID + 1,
         wakeup := s.wakeup || IsNewRoot(s.heap, t))
    case CalculateNextRun(root) =>
      if root == [] then s.(loop := Arm(s.now + THOUSAND_HOURS, s.now))
      else if root[0].runAt <= s.now then s.(loop := Expire)
      else s.(loop := Arm(root[0].runAt, s.now))
    case ResetTimer => s.(loop := Select(s.loop.deadline, s.loop.calculated, s.now))
    case TimerFires => s.(loop := Expire)
    case WakeUp => s.(loop := Calculate, wakeup := false)
    case Quit => s.(loop := Exited)
    case Collect(batch) => s.(loop := Posting(batch), heap := s.heap - multiset(batch))
    case PostOne =>
      var t := s.loop.batch[0];
      s.(loop := Posting(s.loop.batch[1..]), posted := s.posted + multiset{t}, postedAt := s.postedAt[t := s.now])
    case BatchDone => s.(loop := Calculate)
    case Cancel => s.(cancelled := true)
    case ClearHeap => s.(heap := multiset{}, discarded := s.discarded + s.heap)
  }

  ghost function Manager(): Machine<State, Event>
  {
    Machine((s, e) => Enabled(s, e), (s, e) requires Enabled(s, e) => Apply(s, e))
  }

  // ----- invariants -----

  /** From calculateNextRun until the select returns, a task earlier than the
      deadline just computed has left a token in the channel. */
  ghost predicate NoOversleep(s: State)
  {
    (s.loop.Arm? || s.loop.Select?) && !s.wakeup ==> forall x :: x in s.heap ==> s.loop.deadline <= x.runAt
  }

  ghost predicate ClockInv(s: State)
  {
    && (s.loop.Arm? ==> s.loop.calculated <= s.now)
    && (s.loop.Select? ==> s.loop.calculated <= s.loop.armed <= s.now)
  }

  function Batch(s: State): seq<DelayedTask> { if s.loop.Posting? then s.loop.batch else [] }

  /** Never posted early, neither now nor later. */
  ghost predicate NotEarly(s: State)
  {
    && (forall i :: 0 <= i < |Batch(s)| ==> Batch(s)[i].runAt <= s.now)
    && (forall t :: t in s.postedAt ==> t.runAt <= s.postedAt[t] <= s.now)
    && (forall t :: t in s.posted ==> t in s.postedAt)
  }

  ghost predicate Places(added: multiset<DelayedTask>, heap: multiset<DelayedTask>, batch: seq<DelayedTask>,
                         posted: multiset<DelayedTask>, discarded: multiset<DelayedTask>, nextID: nat)
  {
    && added == heap + multiset(batch) + posted + discarded
    && (forall t :: t in added ==> t.id < nextID)
    && (forall t :: t in added ==> added[t] == 1)
  }

  ghost predicate OnePlace(s: State) { Places(s.added, s.heap, Batch(s), s.posted, s.discarded, s.nextID) }

  ghost predicate Inv(s: State)
  {
    NoOversleep(s) && ClockInv(s) && NotEarly(s) && OnePlace(s)
  }

  lemma AddKeepsSleep(s: State, delay: nat)
    requires NoOversleep(s)
    ensures NoOversleep(Apply(s, Add(delay)))
  {
  }

  lemma LoopKeepsSleep(s: State, e: Event)
    requires NoOversleep(s) && Enabled(s, e) && !e.Add? && !e.Collect?
    ensures NoOversleep(Apply(s, e))
  {
  }

  lemma StepKeepsSleep(s: State, e: Event)
    requires NoOversleep(s) && Enabled(s, e)
    ensures NoOversleep(Apply(s, e))
  {
    if e.Add? {
      AddKeepsSleep(s, e.delay);
    } else if !e.Collect? {
      hide NoOversleep, Enabled, Apply;
      LoopKeepsSleep(s, e);
    }
  }

  lemma StepKeepsClock(s: State, e: Event)
    requires ClockInv(s) && Enabled(s, e)
    ensures ClockInv(Apply(s, e))
  {
    hide IsBatch, IsRoot, IsNewRoot;
  }

  lemma PostOneKeepsTimes(s: State)
    requires NotEarly(s) && Enabled(s, PostOne)
    ensures NotEarly(Apply(s, PostOne))
  {
    var t := Apply(s, PostOne);
    assert forall i :: 0 <= i < |Batch(t)| ==> Batch(t)[i] == Batch(s)[i + 1];
    assert Batch(s)[0].runAt <= s.now;
  }

  lemma CollectKeepsTimes(s: State, batch: seq<DelayedTask>)
    requires NotEarly(s) && Enabled(s, Collect(batch))
    ensures NotEarly(Apply(s, Collect(batch)))
  {
  }

  lemma LaterIsStillNotEarly(s: State, t: State)
    requires NotEarly(s) && (Batch(t) == Batch(s) || Batch(t) == []) && s.now <= t.now
    requires t.postedAt == s.postedAt && t.posted == s.posted
    ensures NotEarly(t)
  {
  }

  lemma TimesKept(s: State, e: Event)
    requires Enabled(s, e) && !e.PostOne? && !e.Collect?
    ensures var t := Apply(s, e);
            && (Batch(t) == Batch(s) || Batch(t) == []) && s.now <= t.now
            && t.postedAt == s.postedAt && t.posted == s.posted
  {
    hide IsRoot, IsNewRoot, IsBatch;
  }

  lemma StepKeepsTimes(s: State, e: Event)
    requires NotEarly(s) && Enabled(s, e) && !e.PostOne? && !e.Collect?
    ensures NotEarly(Apply(s, e))
  {
    hide NotEarly, Enabled;
    TimesKept(s, e);
    hide Apply;
    LaterIsStillNotEarly(s, Apply(s, e));
  }

  lemma AddKeepsPlace(s: State, delay: nat)
    requires OnePlace(s)
    ensures OnePlace(Apply(s, Add(delay)))
  {
    hide IsNewRoot;
    assert s.added[DelayedTask(s.now + delay, s.nextID)] == 0;
  }

  lemma CollectKeepsPlace(s: State, batch: seq<DelayedTask>)
    requires OnePlace(s) && Enabled(s, Collect(batch))
    ensures OnePlace(Apply(s, Collect(batch)))
  {
    assert s.heap == (s.heap - multiset(batch)) + multiset(batch);
  }

  lemma PostOneKeepsPlace(s: State)
    requires OnePlace(s) && Enabled(s, PostOne)
    ensures OnePlace(Apply(s, PostOne))
  {
    var b := s.loop.batch;
    assert multiset(b) == multiset{b[0]} + multiset(b[1..]) by {
      assert b == [b[0]] + b[1..];
    }
  }

  lemma ClearKeepsPlace(s: State)
    requires OnePlace(s) && Enabled(s, ClearHeap)
    ensures OnePlace(Apply(s, ClearHeap))
  {
  }

  lemma LoopKeepsPlace(s: State, e: Event)
    requires OnePlace(s) && Enabled(s, e)
    requires !e.Add? && !e.Collect? && !e.PostOne? && !e.ClearHeap?
    ensures OnePlace(Apply(s, e))
  {
    hide Places;
  }

  lemma StepKeepsInv(s: State, e: Event)
    requires Inv(s) && Enabled(s, e)
    ensures Inv(Apply(s, e))
  {
    hide NoOversleep, ClockInv, NotEarly, OnePlace, Apply, Enabled;
    StepKeepsSleep(s, e);
    StepKeepsClock(s, e);
    if e.PostOne? {
      PostOneKeepsTimes(s);
    } else if e.Collect? {
      CollectKeepsTimes(s, e.batch);
    } else {
      StepKeepsTimes(s, e);
    }
    if e.Add? {
      AddKeepsPlace(s, e.delay);
    } else if e.Collect? {
      CollectKeepsPlace(s, e.batch);
    } else if e.PostOne? {
      PostOneKeepsPlace(s);
    } else if e.ClearHeap? {
      ClearKeepsPlace(s);
    } else {
      LoopKeepsPlace(s, e);
    }
  }

  ghost predicate Reachable(s: State) { Manager().Reaches(Init(), s) }

  lemma ReachableInv(s: State)
    requires Reachable(s)
    ensures Inv(s)
  {
    assert Inv(Init());
    hide Inv, Enabled, Apply, Init;
    forall s, e | Inv(s) && Enabled(s, e) ensures Inv(Apply(s, e)) {
      StepKeepsInv(s, e);
    }
    InvariantReached(Manager(), s => Inv(s), Init(), s);
  }

  /** The manager never oversleeps: while the goroutine is on its way to the select
      or in it, a root earlier than the computed deadline comes with a token; and
      once a task is due, by the time the loop took to arm its timer, the select is
      ready to return. */
  lemma NeverOversleeps(s: State, x: DelayedTask)
    requires Reachable(s) && x in s.heap
    ensures (s.loop.Arm? || s.loop.Select?) && x.runAt < s.loop.deadline ==> s.wakeup
    ensures s.loop.Select? && s.now >= x.runAt + (s.loop.armed - s.loop.calculated) ==>
              Enabled(s, WakeUp) || Enabled(s, TimerFires)
  {
    ReachableInv(s);
  }

  /** Each delayed task is in exactly one place, once, and is never posted before its time. */
  lemma OnePlaceNeverEarly(s: State, t: DelayedTask)
    requires Reachable(s) && t in s.added
    ensures s.heap[t] + multiset(Batch(s))[t] + s.posted[t] + s.discarded[t] == 1
    ensures t in s.posted ==> t in s.postedAt && t.runAt <= s.postedAt[t] <= s.now
  {
    ReachableInv(s);
  }

  // ----- what the goroutine and Stop promise over runs -----

  lemma Next(s: State, e: Event)
    requires Reachable(s) && Enabled(s, e)
    ensures Reachable(Apply(s, e))
  {
    hide Enabled, Apply, Init;
    ReachesNext(Manager(), Init(), s, e);
  }

  /** t is the state after event e at s. */
  ghost predicate Took(s: State, e: Event, t: State) { Enabled(s, e) && t == Apply(s, e) }

  /** The loop ends only once the context is done, and only then is anything discarded. */
  ghost predicate EndsCancelled(s: State)
  {
    (s.loop.Exited? ==> s.cancelled) && (s.discarded != multiset{} ==> s.loop.Exited?)
  }

  lemma StaysEndsCancelled(s: State, e: Event)
    requires EndsCancelled(s) && Enabled(s, e)
    ensures EndsCancelled(Apply(s, e))
  {
    hide IsRoot, IsBatch, IsNewRoot;
  }

  lemma AlwaysEndsCancelled(s: State)
    requires Reachable(s)
    ensures EndsCancelled(s)
  {
    assert EndsCancelled(Init());
    hide EndsCancelled, Enabled, Apply, Init;
    forall s, e | EndsCancelled(s) && Enabled(s, e) ensures EndsCancelled(Apply(s, e)) {
      StaysEndsCancelled(s, e);
    }
    InvariantReached(Manager(), s => EndsCancelled(s), Init(), s);
  }

  lemma EndsOnlyCancelled(s: State)
    requires Reachable(s)
    ensures s.loop.Exited? ==> s.cancelled
    ensures s.discarded != multiset{} ==> s.loop.Exited?
  {
    hide Reachable;
    AlwaysEndsCancelled(s);
  }

  ghost predicate Over(s: State, posted: multiset<DelayedTask>, left: multiset<DelayedTask>)
  {
    s.loop.Exited? && s.posted == posted && left <= s.heap + s.discarded
  }

  lemma StaysOver(s: State, e: Event, posted: multiset<DelayedTask>, left: multiset<DelayedTask>)
    requires Over(s, posted, left) && Enabled(s, e)
    ensures Over(Apply(s, e), posted, left)
  {
    hide IsRoot, IsBatch, IsNewRoot;
  }

  lemma OverReached(s: State, t: State, u: State)
    requires Took(s, Quit, t) && Manager().Reaches(t, u)
    ensures Over(u, s.posted, s.heap)
  {
    assert Over(t, s.posted, s.heap);
    hide Over, Enabled, Apply;
    forall u, e | Over(u, s.posted, s.heap) && Enabled(u, e) ensures Over(Apply(u, e), s.posted, s.heap) {
      StaysOver(u, e, s.posted, s.heap);
    }
    InvariantReached(Manager(), u => Over(u, s.posted, s.heap), t, u);
  }

  /** Once the select has taken ctx.Done, nothing more is posted, whatever follows:
      what was in the heap then stays there or is discarded. */
  lemma NothingPostedAfterQuit(s: State, t: State, u: State)
    requires Took(s, Quit, t) && Manager().Reaches(t, u)
    ensures u.posted == s.posted && s.heap <= u.heap + u.discarded
  {
    OverReached(s, t, u);
  }

  /** Steps of the goroutine. */
  predicate LoopEvent(e: Event)
  {
    || e.CalculateNextRun? || e.ResetTimer? || e.TimerFires? || e.WakeUp? || e.Quit?
    || e.Collect? || e.PostOne? || e.BatchDone?
  }

  /** The goroutine is blocked in the select or has ended. */
  ghost predicate AtRest(s: State) { forall e :: LoopEvent(e) ==> !Enabled(s, e) }

  lemma {:induction false} SomeRoot(heap: multiset<DelayedTask>) returns (root: seq<DelayedTask>)
    ensures IsRoot(heap, root)
    decreases |heap|
  {
    if heap == multiset{} {
      root := [];
    } else {
      var t :| t in heap;
      root := SomeRoot(heap - multiset{t});
      assert forall x :: x in heap ==> x == t || x in heap - multiset{t};
      if root == [] || t.runAt <= root[0].runAt {
        root := [t];
      }
    }
  }

  lemma {:induction false} SomeBatch(heap: multiset<DelayedTask>, now: int) returns (batch: seq<DelayedTask>)
    ensures IsBatch(heap, now, batch)
    decreases |heap|
  {
    var root := SomeRoot(heap);
    if root == [] || root[0].runAt > now {
      batch := [];
    } else {
      var rest := heap - multiset{root[0]};
      var later := SomeBatch(rest, now);
      EarliestFirst(heap, now, root[0], later);
      batch := [root[0]] + later;
    }
  }

  lemma EarliestFirst(heap: multiset<DelayedTask>, now: int, t: DelayedTask, later: seq<DelayedTask>)
    requires t in heap && t.runAt <= now && forall x :: x in heap ==> t.runAt <= x.runAt
    requires IsBatch(heap - multiset{t}, now, later)
    ensures IsBatch(heap, now, [t] + later)
  {
    var batch := [t] + later;
    assert multiset(batch) == multiset{t} + multiset(later);
    assert heap - multiset(batch) == heap - multiset{t} - multiset(later);
    forall j | 0 <= j < |later| ensures t.runAt <= later[j].runAt {
      assert later[j] in multiset(later);
    }
  }

  lemma LoopCanStep(s: State)
    requires !s.loop.Exited? && (s.loop.Select? ==> s.cancelled || s.wakeup || s.now >= FireTime(s.loop))
    ensures exists e :: LoopEvent(e) && Enabled(s, e)
  {
    if s.loop.Calculate? {
      var root := SomeRoot(s.heap);
      assert Enabled(s, CalculateNextRun(root));
    } else if s.loop.Expire? {
      var batch := SomeBatch(s.heap, s.now);
      assert Enabled(s, Collect(batch));
    } else {
      assert || Enabled(s, ResetTimer) || Enabled(s, PostOne) || Enabled(s, BatchDone)
             || Enabled(s, Quit) || Enabled(s, WakeUp) || Enabled(s, TimerFires);
    }
  }

  /** At rest: in the select, its context not done, no token and its timer still to
      fire, or ended. */
  lemma WhereItRests(s: State)
    requires AtRest(s)
    ensures s.loop.Exited? || (s.loop.Select? && !s.cancelled && !s.wakeup && s.now < FireTime(s.loop))
  {
    hide Enabled, LoopEvent;
    if !s.loop.Exited? && (s.loop.Select? ==> s.cancelled || s.wakeup || s.now >= FireTime(s.loop)) {
      LoopCanStep(s);
    }
  }

  ghost predicate SomeDue(s: State) { exists x :: x in s.heap && x.runAt <= s.now }

  /** The deadline computed was in the future. */
  ghost predicate Ahead(s: State)
  {
    (s.loop.Arm? || s.loop.Select?) ==> s.loop.calculated < s.loop.deadline
  }

  lemma StaysAhead(s: State, e: Event)
    requires Ahead(s) && Enabled(s, e)
    ensures Ahead(Apply(s, e))
  {
    hide IsRoot, IsBatch, IsNewRoot;
  }

  lemma AlwaysAhead(s: State)
    requires Reachable(s)
    ensures Ahead(s)
  {
    assert Ahead(Init());
    hide Ahead, Enabled, Apply, Init;
    forall s, e | Ahead(s) && Enabled(s, e) ensures Ahead(Apply(s, e)) {
      StaysAhead(s, e);
    }
    InvariantReached(Manager(), s => Ahead(s), Init(), s);
  }

  /** What the goroutine has still to do if the clock and the callers stand still. */
  ghost function Work(s: State): nat
  {
    (if s.wakeup then 10 + |s.heap| else 0) +
    match s.loop
    case Exited => 0
    case Select(_, _, _) => if s.now < FireTime(s.loop) then 1 else 6 + |s.heap|
    case Arm(_, _) => 2
    case Calculate => if SomeDue(s) then 6 + |s.heap| else 3
    case Posting(batch) => |batch| + if SomeDue(s) then 7 + |s.heap| else 4
    case Expire => 5 + |s.heap|
  }

  lemma CollectSpendsWork(s: State, batch: seq<DelayedTask>)
    requires Enabled(s, Collect(batch))
    ensures Work(Apply(s, Collect(batch))) < Work(s)
  {
    var t := Apply(s, Collect(batch));
    assert s.heap == t.heap + multiset(batch);
    assert |s.heap| == |t.heap| + |batch|;
    assert !SomeDue(t);
  }

  lemma PostingSpendsWork(s: State, e: Event)
    requires Enabled(s, e) && (e.PostOne? || e.BatchDone?)
    ensures Work(Apply(s, e)) < Work(s)
  {
    hide IsBatch, IsRoot, IsNewRoot;
    assert SomeDue(Apply(s, e)) == SomeDue(s);
  }

  lemma LoopStepSpendsWork(s: State, e: Event)
    requires Ahead(s) && ClockInv(s) && Enabled(s, e) && LoopEvent(e)
    ensures Work(Apply(s, e)) < Work(s)
  {
    if e.Collect? {
      CollectSpendsWork(s, e.batch);
    } else if e.PostOne? || e.BatchDone? {
      PostingSpendsWork(s, e);
    } else {
      hide IsBatch;
    }
  }

  lemma {:induction false} LoopRunsAreBounded(s: State, es: seq<Event>)
    requires Reachable(s) && Manager().Legal(s, es) && forall i :: 0 <= i < |es| ==> LoopEvent(es[i])
    ensures |es| <= Work(s)
    decreases |es|
  {
    hide Work, Enabled, Apply, LoopEvent, Reachable, Ahead, ClockInv;
    if es != [] {
      ReachableInv(s);
      AlwaysAhead(s);
      LoopStepSpendsWork(s, es[0]);
      Next(s, es[0]);
      LoopRunsAreBounded(Apply(s, es[0]), es[1..]);
    }
  }

  /** While the clock and the callers stand still, the goroutine comes to rest after
      at most Work(s) steps. It rests with every task in its heap still to come by
      the time it took to arm its timer, or, once the context is done, only after
      it has ended. */
  lemma LoopSettles(s: State, more: seq<Event>)
    requires Reachable(s) && Manager().Legal(s, more) && forall i :: 0 <= i < |more| ==> LoopEvent(more[i])
    ensures |more| <= Work(s)
    ensures var t := Manager().After(s, more);
            AtRest(t) ==>
              && (t.loop.Exited? <==> t.cancelled)
              && (t.loop.Select? ==>
                    forall x :: x in t.heap ==> t.now < x.runAt + (t.loop.armed - t.loop.calculated))
  {
    hide Work, Enabled, Apply, LoopEvent, Init;
    LoopRunsAreBounded(s, more);
    var t := Manager().After(s, more);
    ReachesOn(Manager(), Init(), s, more);
    if AtRest(t) {
      WhereItRests(t);
      EndsOnlyCancelled(t);
      ReachableInv(t);
    }
  }

  ghost predicate Has(s: State, x: DelayedTask) { x in s.added }

  lemma AddedStays(s: State, e: Event, x: DelayedTask)
    requires Has(s, x) && Enabled(s, e)
    ensures Has(Apply(s, e), x)
  {
    hide IsRoot, IsBatch, IsNewRoot;
  }

  lemma AddedNow(s: State, delay: nat, t: State)
    requires Reachable(s) && Took(s, Add(delay), t)
    ensures Reachable(t) && Has(t, DelayedTask(s.now + delay, s.nextID))
  {
    hide Reachable, IsNewRoot;
    Next(s, Add(delay));
  }

  lemma AddedReached(s: State, delay: nat, t: State, u: State)
    requires Reachable(s) && Took(s, Add(delay), t) && Manager().Reaches(t, u)
    ensures Reachable(u) && Has(u, DelayedTask(s.now + delay, s.nextID))
  {
    hide Has, Enabled, Apply, Init, Took;
    var x := DelayedTask(s.now + delay, s.nextID);
    AddedNow(s, delay, t);
    forall u, e | Has(u, x) && Enabled(u, e) ensures Has(Apply(u, e), x) {
      AddedStays(u, e, x);
    }
    InvariantReached(Manager(), u => Has(u, x), t, u);
    ReachesFurther(Manager(), Init(), t, u);
  }

  lemma DueAtRestIsOut(u: State, x: DelayedTask)
    requires Reachable(u) && x in u.added && AtRest(u) && u.loop.Select?
    requires u.now >= x.runAt + (u.loop.armed - u.loop.calculated)
    ensures x in u.posted
  {
    hide Reachable, Inv, AtRest;
    OnePlaceNeverEarly(u, x);
    EndsOnlyCancelled(u);
    WhereItRests(u);
    ReachableInv(u);
    if x in u.heap {
      NeverOversleeps(u, x);
    }
  }

  /** A task that AddDelayedTask took at s is afterwards in one place, once, and has
      been posted, no earlier than its delay asked for, by the time the goroutine is
      at rest with the context not done and the clock past its time. */
  lemma AddedIsPostedInTime(s: State, delay: nat, t: State, u: State)
    requires Reachable(s) && Took(s, Add(delay), t) && Manager().Reaches(t, u)
    ensures var x := DelayedTask(s.now + delay, s.nextID);
            && u.heap[x] + multiset(Batch(u))[x] + u.posted[x] + u.discarded[x] == 1
            && (x in u.posted ==> x in u.postedAt && s.now + delay <= u.postedAt[x] <= u.now)
            && (AtRest(u) && u.loop.Select? && u.now >= s.now + delay + (u.loop.armed - u.loop.calculated) ==>
                  x in u.posted)
  {
    var x := DelayedTask(s.now + delay, s.nextID);
    AddedReached(s, delay, t, u);
    hide Reachable, Took, AtRest;
    OnePlaceNeverEarly(u, x);
    if AtRest(u) && u.loop.Select? && u.now >= s.now + delay + (u.loop.armed - u.loop.calculated) {
      DueAtRestIsOut(u, x);
    }
  }

  lemma {:induction false} ComesToRest(s: State) returns (es: seq<Event>)
    requires Reachable(s)
    ensures Manager().Legal(s, es) && AtRest(Manager().After(s, es))
    ensures forall i :: 0 <= i < |es| ==> LoopEvent(es[i])
    decreases Work(s)
  {
    hide Work, Enabled, Apply, LoopEvent, Reachable, Ahead, ClockInv;
    es := [];
    if !AtRest(s) {
      var e :| LoopEvent(e) && Enabled(s, e);
      ReachableInv(s);
      AlwaysAhead(s);
      LoopStepSpendsWork(s, e);
      Next(s, e);
      var more := ComesToRest(Apply(s, e));
      es := [e] + more;
      assert es[1..] == more;
    }
  }

  /** s and t agree on clock, context, callers and what the loop never touches. */
  ghost predicate SameOutside(s: State, t: State)
  {
    t.now == s.now && t.cancelled == s.cancelled && t.added == s.added
  }

  lemma {:induction false} LoopLeavesOutside(s: State, es: seq<Event>)
    requires Manager().Legal(s, es) && forall i :: 0 <= i < |es| ==> LoopEvent(es[i])
    ensures SameOutside(s, Manager().After(s, es))
    decreases |es|
  {
    hide IsRoot, IsBatch, IsNewRoot;
    if es != [] {
      assert SameOutside(s, Apply(s, es[0]));
      LoopLeavesOutside(Apply(s, es[0]), es[1..]);
    }
  }

  /** Stop always gets through: from every reachable state whose context is done the
      goroutine ends without the clock moving, and then the heap is emptied; each
      task added so far has been posted or is discarded. */
  lemma StopGetsThrough(s: State)
    requires Reachable(s) && s.cancelled
    ensures exists u :: && Manager().Reaches(s, u) && u.loop.Exited? && u.heap == multiset{}
                        && u.now == s.now && u.added == s.added && u.added == u.posted + u.discarded
  {
    hide AtRest, LoopEvent, Machine.Legal;
    var es := ComesToRest(s);
    LoopLeavesOutside(s, es);
    var t := Manager().After(s, es);
    ReachesItself(Manager(), s);
    ReachesOn(Manager(), s, s, es);
    ReachesFurther(Manager(), Init(), s, t);
    WhereItRests(t);
    ThenClears(s, t);
  }

  lemma AllOut(t: State, u: State)
    requires Reachable(t) && Took(t, ClearHeap, u)
    ensures u.heap == multiset{} && u.added == u.posted + u.discarded
    ensures u.loop.Exited? && u.now == t.now && u.added == t.added
  {
    hide Reachable;
    Next(t, ClearHeap);
    ReachableInv(u);
  }

  lemma ThenClears(s: State, t: State)
    requires Reachable(t) && Manager().Reaches(s, t) && t.cancelled && t.loop.Exited?
    ensures exists u :: && Manager().Reaches(s, u) && u.loop.Exited? && u.heap == multiset{}
                        && u.now == t.now && u.added == t.added && u.added == u.posted + u.discarded
  {
    var u := Apply(t, ClearHeap);
    AllOut(t, u);
    hide Apply, Init, Machine.Reaches;
    ReachesNext(Manager(), s, t, ClearHeap);
    assert Manager().Reaches(s, u);
  }

  ghost predicate ContextDone(s: State) { s.cancelled }

  lemma StaysDone(s: State, e: Event)
    requires ContextDone(s) && Enabled(s, e)
    ensures ContextDone(Apply(s, e))
  {
    hide IsRoot, IsBatch, IsNewRoot;
  }

  /** Whatever follows Stop's cancel: where the goroutine comes to rest it has ended. */
  lemma StopEndsTheLoop(s: State, t: State, u: State)
    requires Took(s, Cancel, t) && Manager().Reaches(t, u)
    ensures u.cancelled && (AtRest(u) ==> u.loop.Exited?)
  {
    assert ContextDone(t);
    hide Enabled, Apply, AtRest;
    forall u, e | ContextDone(u) && Enabled(u, e) ensures ContextDone(Apply(u, e)) {
      StaysDone(u, e);
    }
    InvariantReached(Manager(), u => ContextDone(u), t, u);
    if AtRest(u) {
      WhereItRests(u);
    }
  }

  /** From the select, once the context is done, Stop can discard the whole heap
      with nothing more posted. */
  lemma StopDiscardsTheHeap(s: State)
    requires Reachable(s) && s.cancelled && s.loop.Select?
    ensures exists u :: && Manager().Reaches(s, u) && u.heap == multiset{}
                        && u.discarded == s.discarded + s.heap && u.posted == s.posted
  {
    var t := Apply(s, Quit);
    ReachesItself(Manager(), s);
    ReachesNext(Manager(), s, s, Quit);
    ReachesNext(Manager(), s, t, ClearHeap);
    assert Manager().Reaches(s, Apply(t, ClearHeap));
  }

  // ----- the data structure does what the protocol asks of it -----

  lemma EarlierIsWeakOrder()
    ensures WeakOrder(Earlier)
  {
  }

  datatype NextRun = Empty | ExpiredNow | Future(wait: nat)

  ghost function TasksOf(nodes: seq<Node<DelayedTask>>): multiset<DelayedTask>
  {
    multiset(ValuesOf(nodes))
  }

  lemma TaskOfNode(nodes: seq<Node<DelayedTask>>, n: Node<DelayedTask>)
    requires n in nodes
    ensures n.value in TasksOf(nodes)
  {
    var i :| 0 <= i < |nodes| && nodes[i] == n;
    ValueAt(nodes, i);
    assert ValuesOf(nodes)[i] in ValuesOf(nodes);
  }

  lemma NodeOfTask(nodes: seq<Node<DelayedTask>>, t: DelayedTask) returns (n: Node<DelayedTask>)
    requires t in TasksOf(nodes)
    ensures n in nodes && n.value == t
  {
    var i :| 0 <= i < |nodes| && ValuesOf(nodes)[i] == t;
    ValueAt(nodes, i);
    n := nodes[i];
  }

  lemma OneNodeMore(whole: seq<Node<DelayedTask>>, part: seq<Node<DelayedTask>>, n: Node<DelayedTask>)
    requires multiset(whole) == multiset(part) + multiset{n}
    ensures TasksOf(whole) == TasksOf(part) + multiset{n.value}
    ensures forall m :: m in part ==> m in whole
  {
    ValuesPermute(whole, part + [n]);
    ValuesConcat(part, [n]);
    assert ValuesOf([n]) == [n.value];
    forall m | m in part ensures m in whole {
      assert m in multiset(part);
      assert m in multiset(whole);
    }
  }

  lemma RootIsEarliest(nodes: seq<Node<DelayedTask>>, root: Node<DelayedTask>)
    requires root in nodes && forall n :: n in nodes ==> !Earlier(n.value, root.value)
    ensures root.value in TasksOf(nodes) && forall x :: x in TasksOf(nodes) ==> root.value.runAt <= x.runAt
  {
    TaskOfNode(nodes, root);
    forall x | x in TasksOf(nodes) ensures root.value.runAt <= x.runAt {
      var n := NodeOfTask(nodes, x);
    }
  }

  /** What has been collected so far, beside what is still in the heap. */
  ghost predicate Collected(now: int, expired: seq<DelayedTask>, rest: multiset<DelayedTask>)
  {
    && (forall i :: 0 <= i < |expired| ==> expired[i].runAt <= now)
    && (forall i, j :: 0 <= i < j < |expired| ==> expired[i].runAt <= expired[j].runAt)
    && (forall i, x :: 0 <= i < |expired| && x in rest ==> expired[i].runAt <= x.runAt)
  }

  lemma NothingCollected(now: int, rest: multiset<DelayedTask>)
    ensures Collected(now, [], rest)
  {
  }

  lemma CollectOneMore(now: int, expired: seq<DelayedTask>, rest: multiset<DelayedTask>, t: DelayedTask)
    requires Collected(now, expired, rest + multiset{t}) && t.runAt <= now
    requires forall x :: x in rest + multiset{t} ==> t.runAt <= x.runAt
    ensures Collected(now, expired + [t], rest)
    ensures multiset(expired + [t]) == multiset(expired) + multiset{t}
  {
    assert t in rest + multiset{t};
    assert forall x :: x in rest ==> x in rest + multiset{t};
  }

  lemma NoTasks(nodes: seq<Node<DelayedTask>>)
    requires nodes == []
    ensures TasksOf(nodes) == multiset{}
  {
  }

  lemma CollectedIsBatch(now: int, expired: seq<DelayedTask>, rest: multiset<DelayedTask>)
    requires Collected(now, expired, rest) && forall x :: x in rest ==> x.runAt > now
    ensures IsBatch(rest + multiset(expired), now, expired)
    ensures rest == rest + multiset(expired) - multiset(expired)
  {
  }

  lemma Adds(s: State, delay: nat, s': State)
    requires var t := DelayedTask(s.now + delay, s.nextID);
             s' == s.(heap := s.heap + multiset{t}, added := s.added + multiset{t}, nextID := s.nextID + 1,
                      wakeup := s.wakeup || IsNewRoot(s.heap, t))
    ensures Took(s, Add(delay), s') && (Reachable(s) ==> Reachable(s'))
  {
    hide Reachable;
    assert Took(s, Add(delay), s');
    if Reachable(s) {
      Next(s, Add(delay));
    }
  }

  lemma BatchIsDue(s: State)
    requires Reachable(s)
    ensures forall i :: 0 <= i < |Batch(s)| ==> Batch(s)[i].runAt <= s.now
  {
    ReachableInv(s);
  }

  class DelayManager {
    var pq: Heap<DelayedTask>
    var wakeup: bool                 // a token is in the channel
    var ctxDone: bool
    var loop: LoopPc                 // where the goroutine stands
    var now: int                     // the clock
    var nextID: nat
    ghost var added: multiset<DelayedTask>
    ghost var posted: multiset<DelayedTask>
    ghost var postedAt: map<DelayedTask, int>
    ghost var discarded: multiset<DelayedTask>

    ghost function Tasks(): multiset<DelayedTask>
      reads this`pq, pq
    {
      TasksOf(pq.nodes)
    }

    ghost function Snapshot(): State
      reads this, pq
    {
      State(now, Tasks(), wakeup, ctxDone, loop, nextID, added, posted, postedAt, discarded)
    }

    ghost predicate ValidHeap()
      reads this`pq, pq, pq.nodes
    {
      pq.Valid() && pq.less == Earlier
    }

    /** The heap is in order with its index fields, and the fields are those of a
        reachable state, so everything above holds of them. */
    ghost predicate Valid()
      reads this, pq, pq.nodes
    {
      ValidHeap() && Reachable(Snapshot())
    }

    constructor ()
      ensures Valid() && Snapshot() == Init() && fresh(pq)
    {
      EarlierIsWeakOrder();
      pq := new Heap(Earlier);
      wakeup, ctxDone, loop, now, nextID := false, false, Calculate, 0, 0;
      added, posted, postedAt, discarded := multiset{}, multiset{}, map[], multiset{};
      new;
      NoTasks(pq.nodes);
      ReachesItself(Manager(), Init());
    }

    method PassTime(d: nat)
      requires Valid()
      modifies this`now
      ensures Valid() && Snapshot() == Apply(old(Snapshot()), Tick(d))
    {
      hide Reachable;
      Next(Snapshot(), Tick(d));
      now := now + d;
    }

    /** heap.Push: the index of the new item tells whether it is the new root. */
    method PushTask(t: DelayedTask) returns (index: int)
      requires ValidHeap()
      modifies pq, pq.nodes
      ensures ValidHeap() && Tasks() == old(Tasks()) + multiset{t}
      ensures index == 0 <==> IsNewRoot(old(Tasks()), t)
    {
      var item := new Node(t);
      ghost var before := pq.nodes;
      pq.Push(item);
      OneNodeMore(pq.nodes, before, item);
      index := item.index;
      if index == 0 {
        forall x | x in TasksOf(before) ensures t.runAt < x.runAt {
          var n := NodeOfTask(before, x);
        }
      } else {
        ghost var n :| n in before && !Earlier(item.value, n.value);
        TaskOfNode(before, n);
      }
    }

    /** A negative delay panics before anything changes. */
    method AddDelayedTask(delay: int) returns (panicked: bool)
      requires Valid()
      modifies this`wakeup, this`nextID, this`added, pq, pq.nodes
      ensures Valid() && panicked == (delay < 0)
      ensures panicked ==> Snapshot() == old(Snapshot())
      ensures !panicked ==> Took(old(Snapshot()), Add(delay), Snapshot())
    {
      hide Reachable, Apply, TasksOf;
      if delay < 0 {
        return true;
      }
      Schedule(delay);
      panicked := false;
    }

    method Schedule(delay: nat)
      requires Valid()
      modifies this`wakeup, this`nextID, this`added, pq, pq.nodes
      ensures Valid() && Took(old(Snapshot()), Add(delay), Snapshot())
    {
      hide ValidHeap, Reachable, IsNewRoot, TasksOf, Took;
      ghost var was := Snapshot();
      var t := DelayedTask(now + delay, nextID);
      added, nextID := added + multiset{t}, nextID + 1;
      Enter(t);
      Adds(was, delay, Snapshot());
    }

    /** A new root leaves a token in the channel, unless one is there already. */
    method Enter(t: DelayedTask)
      requires ValidHeap()
      modifies this`wakeup, pq, pq.nodes
      ensures ValidHeap()
      ensures Snapshot() == old(Snapshot()).(heap := old(Tasks()) + multiset{t},
                                             wakeup := old(wakeup) || IsNewRoot(old(Tasks()), t))
    {
      hide ValidHeap, IsNewRoot, TasksOf;
      var index := PushTask(t);
      if index == 0 {
        wakeup := true;
      }
    }

    /** Peek. */
    method Earliest() returns (root: seq<DelayedTask>)
      requires ValidHeap()
      ensures IsRoot(Tasks(), root)
    {
      root := pq.Peek();
      if root == [] {
        NoTasks(pq.nodes);
      } else {
        RootIsEarliest(pq.nodes, pq.nodes[0]);
      }
    }

    /** How long until the earliest task; an expired task is told from an empty heap. */
    method TimeToNext() returns (next: NextRun)
      requires ValidHeap()
      ensures next.Empty? <==> Tasks() == multiset{}
      ensures next.ExpiredNow? <==> exists t :: t in Tasks() && t.runAt <= now
      ensures next.Future? ==> next.wait > 0
      ensures next.Future? ==> exists t :: t in Tasks() && t.runAt == now + next.wait
      ensures next.Future? ==> forall t :: t in Tasks() ==> t.runAt >= now + next.wait
    {
      var root := Earliest();
      if root == [] {
        return Empty;
      }
      assert root[0] in Tasks();
      next := if root[0].runAt <= now then ExpiredNow else Future(root[0].runAt - now);
    }

    /** calculateNextRun and the loop's decision on it. */
    method CalculateNextRun() returns (ghost root: seq<DelayedTask>)
      requires Valid() && loop.Calculate?
      modifies this`loop
      ensures Valid() && IsRoot(Tasks(), root)
      ensures Snapshot() == Apply(old(Snapshot()), Event.CalculateNextRun(root))
    {
      hide Reachable;
      var peek := Earliest();
      root := peek;
      Next(Snapshot(), Event.CalculateNextRun(root));
      if peek == [] {
        loop := Arm(now + THOUSAND_HOURS, now);
      } else if peek[0].runAt <= now {
        loop := Expire;
      } else {
        loop := Arm(peek[0].runAt, now);
      }
    }

    method ResetTimer()
      requires Valid() && loop.Arm?
      modifies this`loop
      ensures Valid() && Snapshot() == Apply(old(Snapshot()), Event.ResetTimer)
    {
      hide Reachable;
      Next(Snapshot(), Event.ResetTimer);
      loop := Select(loop.deadline, loop.calculated, now);
    }

    /** The select, once one of its arms is ready. */
    method AwaitEvent()
      requires Valid() && loop.Select? && (ctxDone || wakeup || now >= FireTime(loop))
      modifies this`loop, this`wakeup
      ensures Valid()
      ensures || (old(ctxDone) && Took(old(Snapshot()), Quit, Snapshot()))
              || (old(wakeup) && Took(old(Snapshot()), WakeUp, Snapshot()))
              || (old(now >= FireTime(loop)) && Took(old(Snapshot()), TimerFires, Snapshot()))
    {
      hide ValidHeap, Reachable, TasksOf, IsRoot, IsNewRoot, IsBatch;
      if {
        case ctxDone =>
          Next(Snapshot(), Quit);
          loop := Exited;
        case wakeup =>
          Next(Snapshot(), WakeUp);
          loop, wakeup := Calculate, false;
        case now >= FireTime(loop) =>
          Next(Snapshot(), TimerFires);
          loop := Expire;
      }
    }

    /** The loop of processExpiredTasks under the lock: takes out exactly the expired
        tasks, in order. */
    method CollectExpired() returns (expired: seq<DelayedTask>)
      requires ValidHeap()
      modifies pq, pq.nodes
      ensures ValidHeap() && IsBatch(old(Tasks()), now, expired)
      ensures Tasks() == old(Tasks()) - multiset(expired)
    {
      hide TasksOf, Collected, WeakOrder, Ordered;
      expired := [];
      NothingCollected(now, Tasks());
      while |pq.nodes| > 0
        invariant ValidHeap()
        invariant forall j :: 0 <= j < |pq.nodes| ==> pq.nodes[j] in old(pq.nodes)
        invariant old(Tasks()) == Tasks() + multiset(expired)
        invariant Collected(now, expired, Tasks())
        decreases |pq.nodes|
      {
        ghost var before := pq.nodes;
        var peek := pq.Peek();
        RootIsEarliest(before, before[0]);
        if peek[0].runAt > now { break; }
        var item := pq.Pop();
        OneNodeMore(before, pq.nodes, item);
        assert |multiset(before)| == |multiset(pq.nodes)| + 1;
        CollectOneMore(now, expired, Tasks(), item.value);
        expired := expired + [item.value];
        forall j | 0 <= j < |pq.nodes| ensures pq.nodes[j] in old(pq.nodes) {
          assert pq.nodes[j] in before;
        }
      }
      if |pq.nodes| == 0 {
        NoTasks(pq.nodes);
      }
      CollectedIsBatch(now, expired, Tasks());
    }

    /** processExpiredTasks up to the unlock. */
    method ProcessExpired() returns (expired: seq<DelayedTask>)
      requires Valid() && loop.Expire?
      modifies this`loop, pq, pq.nodes
      ensures Valid() && IsBatch(old(Tasks()), now, expired)
      ensures Snapshot() == Apply(old(Snapshot()), Collect(expired))
    {
      hide Reachable, IsBatch, IsRoot, IsNewRoot, TasksOf, WeakOrder, Ordered;
      ghost var was := Snapshot();
      expired := CollectExpired();
      Next(was, Collect(expired));
      loop := Posting(expired);
    }

    /** Outside the lock: the next expired task goes to its target. */
    method PostNext() returns (t: DelayedTask)
      requires Valid() && loop.Posting? && loop.batch != []
      modifies this`loop, this`posted, this`postedAt
      ensures Valid() && t == old(loop.batch)[0] && t.runAt <= now
      ensures Snapshot() == Apply(old(Snapshot()), PostOne)
    {
      hide Reachable, IsBatch, IsRoot, IsNewRoot, TasksOf;
      BatchIsDue(Snapshot());
      assert Batch(Snapshot())[0].runAt <= now;
      Next(Snapshot(), PostOne);
      t := loop.batch[0];
      posted, postedAt := posted + multiset{t}, postedAt[t := now];
      loop := Posting(loop.batch[1..]);
    }

    method FinishBatch()
      requires Valid() && loop.Posting? && loop.batch == []
      modifies this`loop
      ensures Valid() && Snapshot() == Apply(old(Snapshot()), BatchDone)
    {
      hide Reachable;
      Next(Snapshot(), BatchDone);
      loop := Calculate;
    }

    /** Stop: cancel, */
    method CancelContext()
      requires Valid()
      modifies this`ctxDone
      ensures Valid() && Snapshot() == Apply(old(Snapshot()), Cancel)
    {
      hide Reachable;
      Next(Snapshot(), Cancel);
      ctxDone := true;
    }

    /** and, once the goroutine has ended, a fresh heap. */
    method ReplaceHeap()
      requires Valid() && ctxDone && loop.Exited?
      modifies this`pq, this`discarded
      ensures Valid() && fresh(pq) && Snapshot() == Apply(old(Snapshot()), ClearHeap)
    {
      hide Reachable;
      Next(Snapshot(), ClearHeap);
      discarded := discarded + Tasks();
      EarlierIsWeakOrder();
      pq := new Heap(Earlier);
      NoTasks(pq.nodes);
    }
  }
}
