/** Sequenced runners on the pool: the scheduler's protocol and the run-token
    protocol taken together. A runner's PostInternal call enters the scheduler as
    a post of its next runLoop; a runLoop takes steps only while a worker runs it. */
module Composition {
  import opened Counting
  import opened Runs
  import Pool = TaskScheduler
  import Runner = SequencedRunner
  import PoolCalls = SchedulerCalls
  import RunnerCalls = SequencedCalls

  /** What the pool carries: the i-th runLoop of runner r, or another client's task. */
  datatype PoolTask = Loop(r: nat, i: nat) | Other(n: nat)

  datatype System<T> = System(pool: Pool.State<PoolTask>, runners: seq<Runner.State<T>>)

  datatype Event<+T> =
    | PoolStep(move: Pool.Event<PoolTask>)           // a step inside PostInternal or GetWork
    | ClientStep(r: nat, e: Runner.Event<T>)         // a step of a poster or of Shutdown
    | LoopStep(w: nat, r: nat, e: Runner.Event<T>)   // worker w is inside a runLoop of r
    | EnterPost(r: nat, e: Runner.Event<T>)          // a runner calls PostInternal(runLoop)
    | EndLoop(w: nat)                                // the worker's task returns
    | OtherPost(n: nat)

  function Init<T>(workers: nat, count: nat): System<T>
  {
    System(Pool.Init(workers), seq(count, _ => Runner.Init<T>()))
  }

  /** Steps of PostInternal and GetWork; the pool is not shutting down. */
  predicate PoolInside(e: Pool.Event<PoolTask>)
  {
    e.Check? || e.Push? || e.CountUp? || e.Signal? || e.Pop? || e.CountDown? || e.Start? || e.Wake?
  }

  predicate ByClient<T>(e: Runner.Event<T>)
  {
    e.Call? || e.LoadClosed? || e.Push? || e.Cas? || e.MarkClosed? || e.ClearQueue?
  }

  predicate InLoop<T>(e: Runner.Event<T>)
  {
    e.Begin? || e.Fetch? || e.EndTask? || e.Check? || e.Store? || e.Recheck? || e.CasAgain?
  }

  predicate Posts<T>(e: Runner.Event<T>)
  {
    (e.PostFirst? || e.PostNext? || e.PostAgain?) && e.ok
  }

  predicate Over<T>(l: Runner.LoopPc<T>) { l.Finished? || l.Panicked? || l.Discarded? }

  predicate Enabled<T(==)>(s: System<T>, e: Event<T>)
  {
    match e
    case PoolStep(e') => PoolInside(e') && Pool.Enabled(s.pool, e')
    case ClientStep(r, e') => r < |s.runners| && ByClient(e') && Runner.Enabled(s.runners[r], e')
    case LoopStep(w, r, e') =>
      && r < |s.runners| && InLoop(e') && Runner.Enabled(s.runners[r], e')
      && w < |s.pool.workers| && s.pool.workers[w] == Pool.Running(Loop(r, e'.i))
    case EnterPost(r, e') => r < |s.runners| && Posts(e') && Runner.Enabled(s.runners[r], e')
    case EndLoop(w) =>
      && Pool.Enabled(s.pool, Pool.End(w))
      && (var task := s.pool.workers[w].task;
          || task.Other?
          || (task.r < |s.runners| && task.i < |s.runners[task.r].loops| && Over(s.runners[task.r].loops[task.i])))
    case OtherPost(n) => true
  }

  function StepRunner<T(==)>(s: System<T>, r: nat, e: Runner.Event<T>): System<T>
    requires r < |s.runners| && Runner.Enabled(s.runners[r], e)
  {
    s.(runners := s.runners[r := Runner.Apply(s.runners[r], e)])
  }

  function Apply<T(==)>(s: System<T>, e: Event<T>): System<T>
    requires Enabled(s, e)
  {
    match e
    case PoolStep(e') => s.(pool := Pool.Apply(s.pool, e'))
    case ClientStep(r, e') => StepRunner(s, r, e')
    case LoopStep(_, r, e') => StepRunner(s, r, e')
    case EnterPost(r, e') =>
      StepRunner(s, r, e').(pool := Pool.Apply(s.pool, Pool.Call(Loop(r, |s.runners[r].loops|))))
    case EndLoop(w) => s.(pool := Pool.Apply(s.pool, Pool.End(w)))
    case OtherPost(n) => s.(pool := Pool.Apply(s.pool, Pool.Call(Other(n))))
  }

  // ----- the invariant -----

  /** A worker has taken the task and not yet returned from it. */
  predicate WithWorker(w: Pool.WorkerPc<PoolTask>, x: PoolTask)
  {
    (w.Popped? || w.Held? || w.Running?) && w.task == x
  }

  predicate WithPost(p: Pool.PostPc<PoolTask>, x: PoolTask)
  {
    (p.Entering? || p.Open?) && p.task == x
  }

  /** The pool still has the task. */
  ghost predicate Carried(pool: Pool.State<PoolTask>, x: PoolTask)
  {
    || (exists p :: 0 <= p < |pool.posts| && WithPost(pool.posts[p], x))
    || x in pool.queue
    || (exists w :: 0 <= w < |pool.workers| && WithWorker(pool.workers[w], x))
  }

  ghost predicate RunningOn(pool: Pool.State<PoolTask>, x: PoolTask)
  {
    exists w :: 0 <= w < |pool.workers| && pool.workers[w] == Pool.Running(x)
  }

  /** Every runLoop that is not over is still with the pool, and those that have
      begun are with a worker. */
  ghost predicate Linked<T>(s: System<T>)
  {
    forall r, i :: 0 <= r < |s.runners| && 0 <= i < |s.runners[r].loops| ==>
      LinkedLoop(s.pool, Loop(r, i), s.runners[r].loops[i])
  }

  ghost predicate LinkedLoop<T>(pool: Pool.State<PoolTask>, x: PoolTask, l: Runner.LoopPc<T>)
  {
    && (l.InPool? ==> Carried(pool, x))
    && (!l.InPool? && !Over(l) ==> RunningOn(pool, x))
  }

  ghost predicate PoolAlive(pool: Pool.State<PoolTask>)
  {
    && !pool.shuttingDown && !pool.cancelled && |pool.workers| > 0
    && (forall w :: 0 <= w < |pool.workers| ==> !pool.workers[w].Stopped?)
    && (forall p :: 0 <= p < |pool.posts| ==> !pool.posts[p].Rejected?)
  }

  predicate Known(x: PoolTask, loops: seq<nat>)
  {
    x.Loop? ==> x.r < |loops| && x.i < loops[x.r]
  }

  /** The pool carries only runLoops that their runners posted; loops[r] is how many
      runner r has posted. */
  ghost predicate AllKnown(pool: Pool.State<PoolTask>, loops: seq<nat>)
  {
    && (forall p :: 0 <= p < |pool.posts| && (pool.posts[p].Entering? || pool.posts[p].Open?) ==>
          Known(pool.posts[p].task, loops))
    && (forall k :: 0 <= k < |pool.queue| ==> Known(pool.queue[k], loops))
    && (forall w ::
          0 <= w < |pool.workers| && (pool.workers[w].Popped? || pool.workers[w].Held? || pool.workers[w].Running?) ==>
          Known(pool.workers[w].task, loops))
  }

  function Loops<T>(runners: seq<Runner.State<T>>): (n: seq<nat>)
    ensures |n| == |runners| && forall r :: 0 <= r < |n| ==> n[r] == |runners[r].loops|
  {
    seq(|runners|, r requires 0 <= r < |runners| => |runners[r].loops|)
  }

  ghost predicate Inv<T>(s: System<T>)
  {
    && Pool.Inv(s.pool) && PoolAlive(s.pool)
    && (forall r :: 0 <= r < |s.runners| ==> Runner.Inv(s.runners[r]) && !s.runners[r].poolStopped)
    && Linked(s) && AllKnown(s.pool, Loops(s.runners))
  }

  lemma InitInv<T>(workers: nat, count: nat)
    requires workers > 0
    ensures Inv(Init<T>(workers, count))
  {
    hide Pool.Inv, Runner.Inv;
    Pool.InitInv<PoolTask>(workers);
    Runner.InitInv<T>();
  }

  // ----- one step -----

  /** The pool never loses a task before its worker returns. */
  lemma PoolKeepsCarrying(pool: Pool.State<PoolTask>, e: Pool.Event<PoolTask>, x: PoolTask)
    requires PoolInside(e) && Pool.Enabled(pool, e) && PoolAlive(pool)
    ensures Carried(pool, x) ==> Carried(Pool.Apply(pool, e), x)
    ensures RunningOn(pool, x) ==> RunningOn(Pool.Apply(pool, e), x)
  {
    var t := Pool.Apply(pool, e);
    if e.Check? || e.Push? || e.CountUp? || e.Signal? {
      PostKeepsCarrying(pool, e, x);
    } else {
      WorkerKeepsCarrying(pool, e, x);
    }
  }

  lemma PostKeepsCarrying(pool: Pool.State<PoolTask>, e: Pool.Event<PoolTask>, x: PoolTask)
    requires (e.Check? || e.Push? || e.CountUp? || e.Signal?) && Pool.Enabled(pool, e) && PoolAlive(pool)
    ensures Carried(pool, x) ==> Carried(Pool.Apply(pool, e), x)
    ensures RunningOn(pool, x) ==> RunningOn(Pool.Apply(pool, e), x)
  {
    var t := Pool.Apply(pool, e);
    if p :| 0 <= p < |pool.posts| && WithPost(pool.posts[p], x) {
      if p == e.p && e.Push? {
        assert t.queue[|pool.queue|] == x;
      } else {
        assert WithPost(t.posts[p], x);
      }
    } else if x in pool.queue {
      assert x in t.queue;
    } else if w :| 0 <= w < |pool.workers| && WithWorker(pool.workers[w], x) {
      assert WithWorker(t.workers[w], x);
    }
    if w :| 0 <= w < |pool.workers| && pool.workers[w] == Pool.Running(x) {
      assert t.workers[w] == Pool.Running(x);
    }
  }

  lemma WorkerKeepsCarrying(pool: Pool.State<PoolTask>, e: Pool.Event<PoolTask>, x: PoolTask)
    requires (e.Pop? || e.CountDown? || e.Start? || e.Wake?) && Pool.Enabled(pool, e)
    ensures Carried(pool, x) ==> Carried(Pool.Apply(pool, e), x)
    ensures RunningOn(pool, x) ==> RunningOn(Pool.Apply(pool, e), x)
  {
    var t := Pool.Apply(pool, e);
    if p :| 0 <= p < |pool.posts| && WithPost(pool.posts[p], x) {
      assert WithPost(t.posts[p], x);
    } else if x in pool.queue {
      if e.Pop? {
        PopCarries(pool, e.w, e.k, x);
      }
    } else if w :| 0 <= w < |pool.workers| && WithWorker(pool.workers[w], x) {
      assert WithWorker(t.workers[w], x);
    }
    if w :| 0 <= w < |pool.workers| && pool.workers[w] == Pool.Running(x) {
      assert t.workers[w] == Pool.Running(x);
    }
  }

  lemma PopCarries(pool: Pool.State<PoolTask>, w: nat, k: nat, x: PoolTask)
    requires Pool.Enabled(pool, Pool.Pop(w, k)) && x in pool.queue
    ensures Carried(Pool.Apply(pool, Pool.Pop(w, k)), x)
  {
    var t, q := Pool.Apply(pool, Pool.Pop(w, k)), pool.queue;
    assert q == q[..k] + ([q[k]] + q[k + 1..]);
    if x == q[k] {
      assert WithWorker(t.workers[w], x);
    } else {
      assert x in t.queue;
    }
  }

  lemma CallCarries(pool: Pool.State<PoolTask>, y: PoolTask, x: PoolTask)
    ensures var t := Pool.Apply(pool, Pool.Call(y));
            && Carried(t, y) && (Carried(pool, x) ==> Carried(t, x)) && (RunningOn(pool, x) ==> RunningOn(t, x))
  {
    var t := Pool.Apply(pool, Pool.Call(y));
    assert WithPost(t.posts[|pool.posts|], y);
    if p :| 0 <= p < |pool.posts| && WithPost(pool.posts[p], x) {
      assert WithPost(t.posts[p], x);
    } else if w :| 0 <= w < |pool.workers| && WithWorker(pool.workers[w], x) {
      assert WithWorker(t.workers[w], x);
    }
    if w :| 0 <= w < |pool.workers| && pool.workers[w] == Pool.Running(x) {
      assert t.workers[w] == Pool.Running(x);
    }
  }

  lemma EndKeepsOthers(pool: Pool.State<PoolTask>, w: nat, x: PoolTask)
    requires Pool.Enabled(pool, Pool.End(w)) && x != pool.workers[w].task
    ensures var t := Pool.Apply(pool, Pool.End(w));
            && (Carried(pool, x) ==> Carried(t, x)) && (RunningOn(pool, x) ==> RunningOn(t, x))
  {
    var t := Pool.Apply(pool, Pool.End(w));
    if v :| 0 <= v < |pool.workers| && WithWorker(pool.workers[v], x) {
      assert WithWorker(t.workers[v], x);
    }
    if p :| 0 <= p < |pool.posts| && WithPost(pool.posts[p], x) {
      assert WithPost(t.posts[p], x);
    }
    if v :| 0 <= v < |pool.workers| && pool.workers[v] == Pool.Running(x) {
      assert t.workers[v] == Pool.Running(x);
    }
  }

  lemma PoolStepKeepsInv<T>(s: System<T>, e: Pool.Event<PoolTask>)
    requires Inv(s) && PoolInside(e) && Pool.Enabled(s.pool, e)
    ensures Inv(Apply(s, PoolStep(e)))
  {
    hide Pool.Inv, Runner.Inv, Carried, RunningOn, AllKnown;
    Pool.StepKeepsInv(s.pool, e);
    AliveKept(s.pool, e);
    assert AllKnown(Pool.Apply(s.pool, e), Loops(s.runners)) by { KnownKept(s.pool, e, Loops(s.runners)); }
    var t := Apply(s, PoolStep(e));
    forall r, i | 0 <= r < |t.runners| && 0 <= i < |t.runners[r].loops|
      ensures LinkedLoop(t.pool, Loop(r, i), t.runners[r].loops[i])
    {
      assert LinkedLoop(s.pool, Loop(r, i), s.runners[r].loops[i]);
      PoolKeepsCarrying(s.pool, e, Loop(r, i));
    }
  }

  lemma KnownKept(pool: Pool.State<PoolTask>, e: Pool.Event<PoolTask>, loops: seq<nat>)
    requires AllKnown(pool, loops) && (PoolInside(e) || e.Call? || e.End?) && Pool.Enabled(pool, e)
    requires e.Call? ==> Known(e.task, loops)
    ensures AllKnown(Pool.Apply(pool, e), loops)
  {
    hide Pool.PostNext, Pool.WorkerNext, AllKnown;
    if Pool.PostEvent(e) { PostKeepsKnown(pool, e, loops); } else { WorkerKeepsKnown(pool, e, loops); }
  }

  lemma PostKeepsKnown(pool: Pool.State<PoolTask>, e: Pool.Event<PoolTask>, loops: seq<nat>)
    requires AllKnown(pool, loops) && Pool.PostEvent(e) && Pool.Enabled(pool, e)
    requires e.Call? ==> Known(e.task, loops)
    ensures AllKnown(Pool.PostNext(pool, e), loops)
  {
    hide Known;
  }

  lemma WorkerKeepsKnown(pool: Pool.State<PoolTask>, e: Pool.Event<PoolTask>, loops: seq<nat>)
    requires AllKnown(pool, loops) && Pool.WorkerEvent(e) && Pool.Enabled(pool, e)
    ensures AllKnown(Pool.WorkerNext(pool, e), loops)
  {
    hide Known;
    if e.Pop? && pool.queue != [] {
      hide AllKnown;
      PopKeepsKnown(pool, e.w, e.k, loops);
    }
  }

  lemma PopKeepsKnown(pool: Pool.State<PoolTask>, w: nat, k: nat, loops: seq<nat>)
    requires AllKnown(pool, loops) && Pool.Enabled(pool, Pool.Pop(w, k)) && pool.queue != []
    ensures AllKnown(Pool.WorkerNext(pool, Pool.Pop(w, k)), loops)
  {
    hide Known;
  }

  /** Runners only ever post more runLoops. */
  lemma KnownStill(pool: Pool.State<PoolTask>, loops: seq<nat>, more: seq<nat>)
    requires AllKnown(pool, loops) && |more| == |loops| && forall r :: 0 <= r < |loops| ==> loops[r] <= more[r]
    ensures AllKnown(pool, more)
  {
  }

  lemma AliveKept(pool: Pool.State<PoolTask>, e: Pool.Event<PoolTask>)
    requires PoolAlive(pool) && (PoolInside(e) || e.Call? || e.End?) && Pool.Enabled(pool, e)
    ensures PoolAlive(Pool.Apply(pool, e))
  {
    hide Pool.PostNext, Pool.WorkerNext, PoolAlive;
    if Pool.PostEvent(e) { PostKeepsAlive(pool, e); } else { WorkerKeepsAlive(pool, e); }
  }

  lemma PostKeepsAlive(pool: Pool.State<PoolTask>, e: Pool.Event<PoolTask>)
    requires PoolAlive(pool) && Pool.PostEvent(e) && Pool.Enabled(pool, e)
    ensures PoolAlive(Pool.PostNext(pool, e))
  {
  }

  lemma WorkerKeepsAlive(pool: Pool.State<PoolTask>, e: Pool.Event<PoolTask>)
    requires PoolAlive(pool) && Pool.WorkerEvent(e) && Pool.Enabled(pool, e)
    ensures PoolAlive(Pool.WorkerNext(pool, e))
  {
  }

  /** A step of a runner other than a post adds no runLoop and brings none to life
      that was not with a worker. */
  lemma RunnerStepLinks<T>(s: System<T>, r: nat, e: Runner.Event<T>)
    requires Linked(s) && r < |s.runners| && Runner.Enabled(s.runners[r], e) && (ByClient(e) || InLoop(e))
    requires InLoop(e) ==> RunningOn(s.pool, Loop(r, e.i))
    ensures Linked(StepRunner(s, r, e))
  {
    hide Carried, RunningOn;
    var t := StepRunner(s, r, e);
    forall r', i | 0 <= r' < |t.runners| && 0 <= i < |t.runners[r'].loops|
      ensures LinkedLoop(t.pool, Loop(r', i), t.runners[r'].loops[i])
    {
      LoopsStay(s.runners[r], e);
      assert LinkedLoop(s.pool, Loop(r', i), s.runners[r'].loops[i]);
    }
  }

  predicate SameButOne<T(==)>(s: Runner.State<T>, t: Runner.State<T>, i: int)
  {
    && |t.loops| == |s.loops| && t.poolStopped == s.poolStopped
    && (forall k :: 0 <= k < |s.loops| && k != i ==> t.loops[k] == s.loops[k])
    && (0 <= i < |s.loops| ==> !t.loops[i].InPool?)
  }

  lemma LoopsStay<T>(s: Runner.State<T>, e: Runner.Event<T>)
    requires Runner.Enabled(s, e) && (ByClient(e) || InLoop(e))
    ensures SameButOne(s, Runner.Apply(s, e), if InLoop(e) then e.i else -1)
  {
    if ByClient(e) { ClientStays(s, e); } else { LoopStays(s, e); }
  }

  lemma ClientStays<T>(s: Runner.State<T>, e: Runner.Event<T>)
    requires Runner.Enabled(s, e) && ByClient(e)
    ensures SameButOne(s, Runner.Apply(s, e), -1)
  {
  }

  lemma LoopStays<T>(s: Runner.State<T>, e: Runner.Event<T>)
    requires Runner.Enabled(s, e) && InLoop(e)
    ensures SameButOne(s, Runner.Apply(s, e), e.i)
  {
  }

  lemma RunnerStepKeepsInv<T>(s: System<T>, r: nat, e: Runner.Event<T>)
    requires Inv(s) && r < |s.runners| && Runner.Enabled(s.runners[r], e) && (ByClient(e) || InLoop(e))
    requires InLoop(e) ==> RunningOn(s.pool, Loop(r, e.i))
    ensures Inv(StepRunner(s, r, e))
  {
    hide Pool.Inv, Runner.Inv, Linked, PoolAlive, AllKnown, Runner.Apply, Runner.Enabled;
    Runner.StepKeepsInv(s.runners[r], e);
    LoopsStay(s.runners[r], e);
    RunnerStepLinks(s, r, e);
    KnownStill(s.pool, Loops(s.runners), Loops(StepRunner(s, r, e).runners));
  }

  lemma PostedLoop<T>(s: Runner.State<T>, e: Runner.Event<T>)
    requires Runner.Enabled(s, e) && Posts(e)
    ensures var t := Runner.Apply(s, e);
            && |t.loops| == |s.loops| + 1 && t.loops[|s.loops|].InPool? && t.poolStopped == s.poolStopped
            && (forall i :: 0 <= i < |s.loops| ==> t.loops[i] == s.loops[i] || t.loops[i].Finished?)
  {
  }

  lemma EnterPostKeepsInv<T>(s: System<T>, r: nat, e: Runner.Event<T>)
    requires Inv(s) && r < |s.runners| && Posts(e) && Runner.Enabled(s.runners[r], e)
    ensures Inv(Apply(s, EnterPost(r, e)))
  {
    hide Pool.Inv, Runner.Inv, Carried, RunningOn, PoolAlive, AllKnown, Runner.Apply, Pool.Apply;
    var t := Apply(s, EnterPost(r, e));
    var x := Loop(r, |s.runners[r].loops|);
    Pool.StepKeepsInv(s.pool, Pool.Call(x));
    AliveKept(s.pool, Pool.Call(x));
    Runner.StepKeepsInv(s.runners[r], e);
    PostedLoop(s.runners[r], e);
    KnownStill(s.pool, Loops(s.runners), Loops(t.runners));
    KnownKept(s.pool, Pool.Call(x), Loops(t.runners));
    forall r', i | 0 <= r' < |t.runners| && 0 <= i < |t.runners[r'].loops|
      ensures LinkedLoop(t.pool, Loop(r', i), t.runners[r'].loops[i])
    {
      CallCarries(s.pool, x, Loop(r', i));
      assert Loop(r', i) == x || LinkedLoop(s.pool, Loop(r', i), s.runners[r'].loops[i]);
    }
  }

  lemma EndLoopKeepsInv<T>(s: System<T>, w: nat)
    requires Inv(s) && Enabled(s, EndLoop(w))
    ensures Inv(Apply(s, EndLoop(w)))
  {
    hide Pool.Inv, Runner.Inv, Carried, RunningOn, PoolAlive, AllKnown, Pool.Apply;
    Pool.StepKeepsInv(s.pool, Pool.End(w));
    AliveKept(s.pool, Pool.End(w));
    KnownKept(s.pool, Pool.End(w), Loops(s.runners));
    var t := Apply(s, EndLoop(w));
    forall r, i | 0 <= r < |t.runners| && 0 <= i < |t.runners[r].loops|
      ensures LinkedLoop(t.pool, Loop(r, i), t.runners[r].loops[i])
    {
      assert LinkedLoop(s.pool, Loop(r, i), s.runners[r].loops[i]);
      if Loop(r, i) != s.pool.workers[w].task {
        EndKeepsOthers(s.pool, w, Loop(r, i));
      }
    }
  }

  lemma OtherPostKeepsInv<T>(s: System<T>, n: nat)
    requires Inv(s)
    ensures Inv(Apply(s, OtherPost(n)))
  {
    hide Pool.Inv, Runner.Inv, Carried, RunningOn, PoolAlive, AllKnown, Pool.Apply;
    Pool.StepKeepsInv(s.pool, Pool.Call(Other(n)));
    AliveKept(s.pool, Pool.Call(Other(n)));
    KnownKept(s.pool, Pool.Call(Other(n)), Loops(s.runners));
    var t := Apply(s, OtherPost(n));
    forall r, i | 0 <= r < |t.runners| && 0 <= i < |t.runners[r].loops|
      ensures LinkedLoop(t.pool, Loop(r, i), t.runners[r].loops[i])
    {
      assert LinkedLoop(s.pool, Loop(r, i), s.runners[r].loops[i]);
      CallCarries(s.pool, Other(n), Loop(r, i));
    }
  }

  lemma StepKeepsInv<T>(s: System<T>, e: Event<T>)
    requires Inv(s) && Enabled(s, e)
    ensures Inv(Apply(s, e))
  {
    hide Inv, StepRunner, Pool.Apply, Pool.Enabled, Runner.Enabled, Runner.Apply;
    match e {
      case PoolStep(e') => PoolStepKeepsInv(s, e');
      case ClientStep(r, e') => RunnerStepKeepsInv(s, r, e');
      case LoopStep(w, r, e') =>
        assert RunningOn(s.pool, Loop(r, e'.i));
        RunnerStepKeepsInv(s, r, e');
      case EnterPost(r, e') => EnterPostKeepsInv(s, r, e');
      case EndLoop(w) => EndLoopKeepsInv(s, w);
      case OtherPost(n) => OtherPostKeepsInv(s, n);
    }
  }

  function Machinery<T(==,!new)>(): Machine<System<T>, Event<T>> { Machine(Enabled<T>, Apply<T>) }

  ghost predicate Reachable<T(!new)>(workers: nat, count: nat, s: System<T>)
  {
    Machinery<T>().Reaches(Init<T>(workers, count), s)
  }

  lemma ReachableInv<T(!new)>(workers: nat, count: nat, s: System<T>)
    requires workers > 0 && Reachable(workers, count, s)
    ensures Inv(s)
  {
    hide Inv, Enabled, Apply, Init;
    InitInv<T>(workers, count);
    forall s: System<T>, e: Event<T> | Inv(s) && Enabled(s, e) ensures Inv(Apply(s, e)) {
      StepKeepsInv(s, e);
    }
    InvariantReached(Machinery<T>(), s => Inv(s), Init<T>(workers, count), s);
  }

  // ----- the system is one pool and its runners -----

  ghost predicate PartsReachable<T(!new)>(workers: nat, s: System<T>)
  {
    && Pool.Reachable(workers, s.pool)
    && (forall r :: 0 <= r < |s.runners| ==> Runner.Reachable(s.runners[r]))
  }

  lemma PoolPart<T(!new)>(workers: nat, s: System<T>, e: Pool.Event<PoolTask>)
    requires Pool.Reachable(workers, s.pool) && Pool.Enabled(s.pool, e)
    ensures Pool.Reachable(workers, Pool.Apply(s.pool, e))
  {
    hide Pool.Reachable, Pool.Enabled, Pool.Apply;
    var t := Pool.Step(workers, s.pool, e);
  }

  lemma StepKeepsParts<T(!new)>(workers: nat, s: System<T>, e: Event<T>)
    requires PartsReachable(workers, s) && Enabled(s, e)
    ensures PartsReachable(workers, Apply(s, e))
  {
    hide Pool.Reachable, Runner.Reachable, Runner.Enabled, Runner.Apply, Pool.Apply;
    match e {
      case PoolStep(move) => PoolPart(workers, s, move);
      case EndLoop(w) => PoolPart(workers, s, Pool.End(w));
      case OtherPost(n) => PoolPart(workers, s, Pool.Call(Other(n)));
      case ClientStep(r, e') => Runner.StepReaches(s.runners[r], e');
      case LoopStep(_, r, e') => Runner.StepReaches(s.runners[r], e');
      case EnterPost(r, e') =>
        Runner.StepReaches(s.runners[r], e');
        PoolPart(workers, s, Pool.Call(Loop(r, |s.runners[r].loops|)));
    }
  }

  lemma InitParts<T(!new)>(workers: nat, count: nat)
    ensures PartsReachable(workers, Init<T>(workers, count))
  {
    Pool.StartReachable<PoolTask>(workers);
    ReachesItself(Runner.Runner<T>(), Runner.Init<T>());
  }

  /** Seen by itself, the pool follows its own protocol and every runner its own, so
      all that holds of a pool or a runner holds of those of the system. */
  lemma EachPartIsReachable<T(!new)>(workers: nat, count: nat, s: System<T>)
    requires Reachable(workers, count, s)
    ensures Pool.Reachable(workers, s.pool)
    ensures forall r :: 0 <= r < |s.runners| ==> Runner.Reachable(s.runners[r])
  {
    InitParts<T>(workers, count);
    hide PartsReachable, Enabled, Apply, Init;
    forall s: System<T>, e: Event<T> | PartsReachable(workers, s) && Enabled(s, e)
      ensures PartsReachable(workers, Apply(s, e))
    {
      StepKeepsParts(workers, s, e);
    }
    InvariantReached(Machinery<T>(), s => PartsReachable(workers, s), Init<T>(workers, count), s);
    PartsMean(workers, s);
  }

  lemma PartsMean<T(!new)>(workers: nat, s: System<T>)
    requires PartsReachable(workers, s)
    ensures Pool.Reachable(workers, s.pool)
    ensures forall r :: 0 <= r < |s.runners| ==> Runner.Reachable(s.runners[r])
  {
  }

  // ----- nothing is left waiting -----

  /** Everything but new posts, and the closing of a runner. */
  predicate Internal<T>(e: Event<T>)
  {
    !e.OtherPost? && !(e.ClientStep? && (e.e.Call? || e.e.MarkClosed? || e.e.ClearQueue?))
  }

  ghost predicate Quiescent<T(!new)>(s: System<T>)
  {
    forall e :: Internal(e) ==> !Enabled(s, e)
  }

  /** Once only new posts are possible, every worker sleeps. */
  lemma WorkersSleep<T(!new)>(s: System<T>, w: nat)
    requires Inv(s) && Quiescent(s) && w < |s.pool.workers|
    ensures s.pool.workers[w].Waiting?
  {
    hide Pool.Inv, Runner.Inv, Linked;
    assert !Enabled(s, PoolStep(Pool.Pop(w, 0))) && !Enabled(s, PoolStep(Pool.CountDown(w)));
    assert !Enabled(s, PoolStep(Pool.Start(w))) && !Enabled(s, EndLoop(w));
    if s.pool.workers[w].Running? && s.pool.workers[w].task.Loop? {
      var x := s.pool.workers[w].task;
      assert x.r < |s.runners| && x.i < |s.runners[x.r].loops|;
      LoopCanMove(s, w, x.r, x.i);
    }
  }

  /** A runLoop on a worker is over or has a step to take. */
  lemma LoopCanMove<T(!new)>(s: System<T>, w: nat, r: nat, i: nat)
    requires Quiescent(s) && w < |s.pool.workers| && r < |s.runners| && i < |s.runners[r].loops|
    requires s.pool.workers[w] == Pool.Running(Loop(r, i))
    ensures Over(s.runners[r].loops[i])
  {
    LoopStepsBlocked(s, w, r, i);
    PostsBlocked(s, r, i);
  }

  lemma LoopStepsBlocked<T(!new)>(s: System<T>, w: nat, r: nat, i: nat)
    requires Quiescent(s) && w < |s.pool.workers| && r < |s.runners| && i < |s.runners[r].loops|
    requires s.pool.workers[w] == Pool.Running(Loop(r, i))
    ensures var l := s.runners[r].loops[i];
            !l.InPool? && !l.Fetching? && !l.Executing? && !l.Checking? && !l.Idling? && !l.Stored? && !l.Racing?
  {
    hide Quiescent, Enabled;
    LoopStepBlocked(s, w, r, Runner.Begin(i));
    LoopStepBlocked(s, w, r, Runner.Fetch(i));
    LoopStepBlocked(s, w, r, Runner.EndTask(i));
    LoopStepBlocked(s, w, r, Runner.Check(i));
    LoopStepBlocked(s, w, r, Runner.Store(i));
    LoopStepBlocked(s, w, r, Runner.Recheck(i));
    LoopStepBlocked(s, w, r, Runner.CasAgain(i));
  }

  lemma LoopStepBlocked<T(!new)>(s: System<T>, w: nat, r: nat, e: Runner.Event<T>)
    requires Quiescent(s) && w < |s.pool.workers| && r < |s.runners| && InLoop(e)
    requires s.pool.workers[w] == Pool.Running(Loop(r, e.i))
    ensures !Runner.Enabled(s.runners[r], e)
  {
    hide Runner.Enabled;
    assert !Enabled(s, LoopStep(w, r, e));
  }

  lemma PostsBlocked<T(!new)>(s: System<T>, r: nat, i: nat)
    requires Quiescent(s) && r < |s.runners| && i < |s.runners[r].loops|
    ensures !s.runners[r].loops[i].Passing? && !s.runners[r].loops[i].WonAgain?
  {
    assert !Enabled(s, EnterPost(r, Runner.PostNext(i, true))) && !Enabled(s, EnterPost(r, Runner.PostAgain(i, true)));
  }

  lemma PoolIsQuiet<T(!new)>(s: System<T>)
    requires Inv(s) && Quiescent(s)
    ensures forall w :: 0 <= w < |s.pool.workers| ==> s.pool.workers[w].Waiting?
    ensures forall p :: 0 <= p < |s.pool.posts| ==> s.pool.posts[p].Returned?
    ensures Pool.Quiescent(s.pool) && PoolAlive(s.pool)
  {
    hide Pool.Inv, Runner.Inv, Linked;
    forall w | 0 <= w < |s.pool.workers| ensures s.pool.workers[w].Waiting? {
      WorkersSleep(s, w);
    }
    forall p | 0 <= p < |s.pool.posts| ensures s.pool.posts[p].Returned? {
      assert !Enabled(s, PoolStep(Pool.Check(p))) && !Enabled(s, PoolStep(Pool.Push(p)));
      assert !Enabled(s, PoolStep(Pool.CountUp(p))) && !Enabled(s, PoolStep(Pool.Signal(p)));
    }
    forall e: Pool.Event<PoolTask> | Pool.Internal(e) ensures !Pool.Enabled(s.pool, e) {
      if e.Wake? {
        assert !Enabled(s, PoolStep(e));
      }
    }
  }

  lemma PoolRests<T(!new)>(s: System<T>)
    requires Inv(s) && Quiescent(s)
    ensures forall w :: 0 <= w < |s.pool.workers| ==> s.pool.workers[w].Waiting?
    ensures forall p :: 0 <= p < |s.pool.posts| ==> s.pool.posts[p].Returned?
    ensures s.pool.queue == []
  {
    hide Pool.Inv, Runner.Inv, Linked, Quiescent, Pool.Quiescent;
    PoolIsQuiet(s);
    assert !s.pool.workers[0].Stopped?;
    Pool.QuiescentQueueIsEmpty(s.pool);
  }

  lemma RunnerRests<T(!new)>(s: System<T>, r: nat)
    requires Inv(s) && Quiescent(s) && r < |s.runners|
    ensures Runner.Quiescent(s.runners[r])
  {
    hide Pool.Inv, Runner.Inv;
    PoolRests(s);
    var x := s.runners[r];
    forall i | 0 <= i < |x.loops| ensures Over(x.loops[i]) {
      assert LinkedLoop(s.pool, Loop(r, i), x.loops[i]);
    }
    forall e: Runner.Event<T> | Runner.Internal(e) ensures !Runner.Enabled(x, e) {
      if e.PostFirst? {
        assert !Enabled(s, EnterPost(r, Runner.PostFirst(e.p, true)));
      } else if ByClient(e) {
        assert !Enabled(s, ClientStep(r, e));
      }
    }
  }

  /** The two protocols together lose no wakeup: when nothing but new posts can
      happen, the pool's queue and every runner's queue are empty, and every runner
      has executed, in order, all that was pushed and not dropped by its Shutdown. An
      open runner has executed the task of every call, once. */
  lemma EveryRunnerDrains<T(!new)>(workers: nat, count: nat, s: System<T>, r: nat)
    requires workers > 0 && Reachable(workers, count, s) && Quiescent(s) && r < |s.runners|
    ensures s.pool.queue == [] && s.runners[r].queue == []
    ensures var x := s.runners[r]; x.cutFrom <= x.cutTo <= |x.pushed| && x.executed == Runner.Kept(x)
    ensures var x := s.runners[r];
            !x.closed ==>
              && multiset(x.executed) == multiset(x.called)
              && forall p :: 0 <= p < |x.posts| ==> x.posts[p].Returned?
  {
    ReachableInv(workers, count, s);
    PoolRests(s);
    RunnerRests(s, r);
    Runner.RestedRunnerIsDone(s.runners[r]);
    EachPartIsReachable(workers, count, s);
    hide Runner.Reachable, Runner.Quiescent, Reachable, Quiescent;
    if !s.runners[r].closed {
      RunnerCalls.OpenRunnerRunsEveryCall(s.runners[r]);
    }
  }

  /** And the pool has run to its end every runLoop and every other task posted to it, once. */
  lemma PoolFinishesEverything<T(!new)>(workers: nat, count: nat, s: System<T>)
    requires workers > 0 && Reachable(workers, count, s) && Quiescent(s)
    ensures s.pool.finished == multiset(s.pool.called)
  {
    ReachableInv(workers, count, s);
    PoolIsQuiet(s);
    EachPartIsReachable(workers, count, s);
    hide Pool.Reachable, Pool.Quiescent;
    PoolCalls.OpenPoolFinishesEveryCall(workers, s.pool);
  }

  // ----- and it comes to that after a bounded number of steps -----

  /** The steps a post has left, and what it may set going. */
  function PostWeight<T>(p: Runner.PostPc<T>): nat
  {
    match p
    case Entering(_) => 18 case Open(_) => 17 case Pushed => 16 case Won => 15
    case Returned => 0 case Refused => 0
  }

  /** The same for a runLoop while its runner's queue is empty, */
  function LowWeight<T>(l: Runner.LoopPc<T>): nat
  {
    match l
    case InPool => 4 case Fetching => 3 case Executing(_) => 17 case Checking => 16 case Passing => 15
    case Idling => 2 case Stored => 1 case Racing => 16 case WonAgain => 15
    case Finished => 0 case Panicked => 0 case Discarded => 0
  }

  /** and while it is not: one that goes idle may come back for the task. */
  function HighWeight<T>(l: Runner.LoopPc<T>): nat
  {
    if l.Idling? then 18 else if l.Stored? then 17 else LowWeight(l)
  }

  function AlivePost<T>(p: Runner.PostPc<T>): nat { if p.Returned? || p.Refused? then 0 else 1 }
  function AliveLoop<T>(l: Runner.LoopPc<T>): nat { if Over(l) then 0 else 1 }

  /** The post has its push still ahead. */
  function Ahead<T>(p: Runner.PostPc<T>): nat { if p.Entering? || p.Open? then 1 else 0 }

  function Alive<T>(s: Runner.State<T>): nat { Sum(s.posts, AlivePost) + Sum(s.loops, AliveLoop) }

  function LoopsWeight<T>(more: bool, loops: seq<Runner.LoopPc<T>>): nat
  {
    if more then Sum(loops, HighWeight) else Sum(loops, LowWeight)
  }

  /** A push can bring every live loop back once, so pushes ahead count for each of them. */
  function RunnerWork<T>(s: Runner.State<T>): nat
  {
    Sum(s.posts, PostWeight) + LoopsWeight(s.queue != [], s.loops) + 15 * |s.queue|
    + 32 * (Sum(s.posts, Ahead) * Alive(s))
  }

  function Work<T>(s: System<T>): nat { Pool.Work(s.pool) + Sum(s.runners, RunnerWork) }

  lemma {:induction false} Weights<T>(ls: seq<Runner.LoopPc<T>>)
    ensures Sum(ls, LowWeight) <= Sum(ls, HighWeight) <= Sum(ls, LowWeight) + 16 * Sum(ls, AliveLoop)
  {
    if ls != [] {
      Weights(ls[1..]);
    }
  }

  lemma LoopsChange<T>(ls: seq<Runner.LoopPc<T>>, i: nat, l: Runner.LoopPc<T>)
    requires i < |ls|
    ensures var m := ls[i := l];
            && Sum(m, LowWeight) + LowWeight(ls[i]) == Sum(ls, LowWeight) + LowWeight(l)
            && Sum(m, HighWeight) + HighWeight(ls[i]) == Sum(ls, HighWeight) + HighWeight(l)
            && Sum(m, AliveLoop) + AliveLoop(ls[i]) == Sum(ls, AliveLoop) + AliveLoop(l)
  {
    SumUpdate(ls, i, l, LowWeight);
    SumUpdate(ls, i, l, HighWeight);
    SumUpdate(ls, i, l, AliveLoop);
  }

  lemma PostsChange<T>(ps: seq<Runner.PostPc<T>>, i: nat, p: Runner.PostPc<T>)
    requires i < |ps|
    ensures var m := ps[i := p];
            && Sum(m, PostWeight) + PostWeight(ps[i]) == Sum(ps, PostWeight) + PostWeight(p)
            && Sum(m, AlivePost) + AlivePost(ps[i]) == Sum(ps, AlivePost) + AlivePost(p)
            && Sum(m, Ahead) + Ahead(ps[i]) == Sum(ps, Ahead) + Ahead(p)
            && AlivePost(ps[i]) <= Sum(ps, AlivePost) && Ahead(ps[i]) <= Sum(ps, Ahead)
  {
    SumUpdate(ps, i, p, PostWeight);
    SumUpdate(ps, i, p, AlivePost);
    SumUpdate(ps, i, p, Ahead);
    SumAt(ps, i, AlivePost);
    SumAt(ps, i, Ahead);
  }

  lemma LoopAppended<T>(ls: seq<Runner.LoopPc<T>>)
    ensures var m := ls + [Runner.InPool];
            && Sum(m, LowWeight) == Sum(ls, LowWeight) + 4 && Sum(m, HighWeight) == Sum(ls, HighWeight) + 4
            && Sum(m, AliveLoop) == Sum(ls, AliveLoop) + 1
  {
    SumAppend(ls, Runner.InPool, LowWeight);
    SumAppend(ls, Runner.InPool, HighWeight);
    SumAppend(ls, Runner.InPool, AliveLoop);
  }

  lemma Product(a: nat, b: nat, a': nat, b': nat)
    requires a' <= a && b' <= b
    ensures a' * b' <= a * b
    ensures a' + 1 <= a ==> a' * b' + b' <= a * b
  {
    assert a' * b' <= a' * b <= a * b;
    if a' + 1 <= a {
      assert (a' + 1) * b' <= a * b' <= a * b;
    }
  }

  /** A push makes the queue non-empty: it pays for every loop it may bring back. */
  lemma PushSpends<T>(s: Runner.State<T>, p: nat)
    requires Runner.Enabled(s, Runner.Push(p))
    ensures RunnerWork(Runner.Apply(s, Runner.Push(p))) < RunnerWork(s)
  {
    hide Sum;
    var t := Runner.Apply(s, Runner.Push(p));
    PostsChange(s.posts, p, Runner.Pushed);
    Product(Sum(s.posts, Ahead), Alive(s), Sum(t.posts, Ahead), Alive(t));
    Weights(s.loops);
  }

  lemma PosterMoves<T>(s: Runner.State<T>, t: Runner.State<T>, p: nat)
    requires p < |s.posts| == |t.posts| && t.posts == s.posts[p := t.posts[p]]
    requires t.queue == s.queue && t.loops == s.loops
    requires PostWeight(t.posts[p]) < PostWeight(s.posts[p]) && Ahead(t.posts[p]) <= Ahead(s.posts[p])
    ensures RunnerWork(t) < RunnerWork(s)
  {
    hide Sum;
    PostsChange(s.posts, p, t.posts[p]);
    Product(Sum(s.posts, Ahead), Alive(s), Sum(t.posts, Ahead), Alive(t));
  }

  lemma PosterSpends<T>(s: Runner.State<T>, e: Runner.Event<T>)
    requires Runner.Enabled(s, e) && (e.LoadClosed? || e.Push? || e.Cas?)
    ensures RunnerWork(Runner.Apply(s, e)) < RunnerWork(s)
  {
    hide RunnerWork;
    if e.Push? {
      PushSpends(s, e.p);
    } else {
      PosterMoves(s, Runner.Apply(s, e), e.p);
    }
  }

  /** What a loop's step other than a fetch changes of the weights. */
  predicate LoopMoves<T(==)>(s: Runner.State<T>, t: Runner.State<T>, i: nat)
  {
    && i < |s.loops| == |t.loops| && t.posts == s.posts && t.queue == s.queue
    && t.loops == s.loops[i := t.loops[i]]
    && !Over(s.loops[i])
    && (if s.queue == [] then LowWeight(t.loops[i]) < LowWeight(s.loops[i])
        else HighWeight(t.loops[i]) < HighWeight(s.loops[i]))
  }

  lemma LoopMovesOn<T>(s: Runner.State<T>, e: Runner.Event<T>)
    requires Runner.Enabled(s, e) && InLoop(e) && !e.Fetch?
    ensures LoopMoves(s, Runner.Apply(s, e), e.i)
  {
    hide LoopMoves;
    if e.Begin? || e.EndTask? || e.Check? { LoopRuns(s, e); } else { LoopWindsUp(s, e); }
  }

  lemma LoopRuns<T>(s: Runner.State<T>, e: Runner.Event<T>)
    requires Runner.Enabled(s, e) && (e.Begin? || e.EndTask? || e.Check?)
    ensures LoopMoves(s, Runner.Apply(s, e), e.i)
  {
  }

  lemma LoopWindsUp<T>(s: Runner.State<T>, e: Runner.Event<T>)
    requires Runner.Enabled(s, e) && (e.Store? || e.Recheck? || e.CasAgain?)
    ensures LoopMoves(s, Runner.Apply(s, e), e.i)
  {
  }

  lemma MoveSpends<T>(s: Runner.State<T>, t: Runner.State<T>, i: nat)
    requires LoopMoves(s, t, i)
    ensures RunnerWork(t) < RunnerWork(s)
  {
    hide Sum;
    LoopsChange(s.loops, i, t.loops[i]);
    Product(Sum(s.posts, Ahead), Alive(s), Sum(t.posts, Ahead), Alive(t));
  }

  lemma FetchSpends<T>(s: Runner.State<T>, i: nat)
    requires Runner.Enabled(s, Runner.Fetch(i))
    ensures RunnerWork(Runner.Apply(s, Runner.Fetch(i))) < RunnerWork(s)
  {
    hide Sum;
    var t := Runner.Apply(s, Runner.Fetch(i));
    LoopsChange(s.loops, i, t.loops[i]);
    Weights(t.loops);
    Product(Sum(s.posts, Ahead), Alive(s), Sum(t.posts, Ahead), Alive(t));
  }

  lemma LoopSpends<T>(s: Runner.State<T>, e: Runner.Event<T>)
    requires Runner.Enabled(s, e) && InLoop(e)
    ensures RunnerWork(Runner.Apply(s, e)) < RunnerWork(s)
  {
    hide RunnerWork, LoopMoves;
    if e.Fetch? {
      FetchSpends(s, e.i);
    } else {
      LoopMovesOn(s, e);
      MoveSpends(s, Runner.Apply(s, e), e.i);
    }
  }

  /** Posting a runLoop spends enough for the scheduler's part of the post. */
  lemma PostSpends<T>(s: Runner.State<T>, e: Runner.Event<T>)
    requires Runner.Enabled(s, e) && Posts(e)
    ensures RunnerWork(Runner.Apply(s, e)) + 10 < RunnerWork(s)
  {
    hide Sum;
    var t := Runner.Apply(s, e);
    if e.PostFirst? {
      PostsChange(s.posts, e.p, Runner.Returned);
      LoopAppended(s.loops);
    } else {
      LoopsChange(s.loops, e.i, Runner.Finished);
      LoopAppended(s.loops[e.i := Runner.Finished]);
    }
    Product(Sum(s.posts, Ahead), Alive(s), Sum(t.posts, Ahead), Alive(t));
  }

  lemma RunnersChange<T>(rs: seq<Runner.State<T>>, r: nat, x: Runner.State<T>)
    requires r < |rs|
    ensures Sum(rs[r := x], RunnerWork) + RunnerWork(rs[r]) == Sum(rs, RunnerWork) + RunnerWork(x)
  {
    SumUpdate(rs, r, x, RunnerWork);
  }

  lemma CallWork(pool: Pool.State<PoolTask>, x: PoolTask)
    ensures Pool.Work(Pool.Apply(pool, Pool.Call(x))) == Pool.Work(pool) + 10
  {
    SumAppend(pool.posts, Pool.Entering(x), Pool.PostWork);
  }

  lemma InternalStepsSpendWork<T>(s: System<T>, e: Event<T>)
    requires Enabled(s, e) && Internal(e)
    ensures Work(Apply(s, e)) < Work(s)
  {
    hide Pool.Work, Pool.Apply, Pool.Enabled, RunnerWork, Runner.Enabled, Runner.Apply;
    match e {
      case PoolStep(move) => Pool.InternalStepsSpendWork(s.pool, move);
      case EndLoop(w) => Pool.InternalStepsSpendWork(s.pool, Pool.End(w));
      case ClientStep(r, e') =>
        PosterSpends(s.runners[r], e');
        RunnersChange(s.runners, r, Runner.Apply(s.runners[r], e'));
      case LoopStep(_, r, e') =>
        LoopSpends(s.runners[r], e');
        RunnersChange(s.runners, r, Runner.Apply(s.runners[r], e'));
      case EnterPost(r, e') =>
        PostSpends(s.runners[r], e');
        RunnersChange(s.runners, r, Runner.Apply(s.runners[r], e'));
        CallWork(s.pool, Loop(r, |s.runners[r].loops|));
    }
  }

  /** Without new posts the combined system takes no more steps than Work says, */
  lemma {:induction false} InternalRunsAreBounded<T(!new)>(s: System<T>, es: seq<Event<T>>)
    requires Machinery<T>().Legal(s, es) && forall i :: 0 <= i < |es| ==> Internal(es[i])
    ensures |es| <= Work(s)
    decreases |es|
  {
    hide Work, Enabled, Apply, Internal;
    if es != [] {
      InternalStepsSpendWork(s, es[0]);
      InternalRunsAreBounded(Apply(s, es[0]), es[1..]);
    }
  }

  /** and where they end every runner's queue is empty. */
  lemma RunnersDrain<T(!new)>(workers: nat, count: nat, s: System<T>, more: seq<Event<T>>)
    requires workers > 0 && Reachable(workers, count, s)
    requires Machinery<T>().Legal(s, more) && forall i :: 0 <= i < |more| ==> Internal(more[i])
    ensures |more| <= Work(s)
    ensures var t := Machinery<T>().After(s, more);
            Quiescent(t) ==> t.pool.queue == [] && forall r :: 0 <= r < |t.runners| ==> t.runners[r].queue == []
  {
    hide Work, Enabled, Apply, Internal, Quiescent, Init;
    InternalRunsAreBounded(s, more);
    var t := Machinery<T>().After(s, more);
    ReachesOn(Machinery<T>(), Init<T>(workers, count), s, more);
    if Quiescent(t) {
      PoolIsEmpty(workers, count, t);
      forall r | 0 <= r < |t.runners| ensures t.runners[r].queue == [] {
        EveryRunnerDrains(workers, count, t, r);
      }
    }
  }

  lemma PoolIsEmpty<T(!new)>(workers: nat, count: nat, s: System<T>)
    requires workers > 0 && Reachable(workers, count, s) && Quiescent(s)
    ensures s.pool.queue == []
  {
    ReachableInv(workers, count, s);
    PoolRests(s);
  }
}
