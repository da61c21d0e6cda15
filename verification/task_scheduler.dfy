/** The pool's push/signal/pop/sleep protocol (core/task_scheduler.go and the
    worker loop of pool.go), one event per atomic operation.

    A post is a thread inside PostInternal, a worker a thread inside workerLoop.
    Pop may take any queued position, so the results hold for the FIFO and the
    priority queue alike. */
module TaskScheduler {
  import opened Counting
  import opened Runs

  datatype WorkerPc<+T> =
    | Popping            // about to call queue.Pop
    | Popped(task: T)    // popped, metricQueued not yet decremented
    | Held(task: T)      // GetWork has returned, OnTaskStart not yet called
    | Running(task: T)   // between OnTaskStart and OnTaskEnd
    | Waiting            // blocked in the select
    | Stopped

  datatype PostPc<+T> =
    | Entering(task: T)  // about to load shuttingDown
    | Open(task: T)      // about to push
    | Pushed             // pushed, metricQueued not yet incremented
    | Counted            // about to try the non-blocking send
    | Returned
    | Rejected

  /** Where a call of ShutdownGraceful stands. */
  datatype Waiter =
    | Away
    | Polling          // about to load metricQueued on its next tick
    | SawNoneQueued    // about to load metricActive
    | ReturnedNil
    | TimedOut

  datatype State<T> = State(
    queue: seq<T>,
    signal: nat,
    metricQueued: int,
    metricActive: int,
    shuttingDown: bool,
    cleared: bool,
    cancelled: bool,
    workers: seq<WorkerPc<T>>,
    posts: seq<PostPc<T>>,
    waiter: Waiter,
    // history: what was pushed, handed to a worker, ended, thrown away by Shutdown,
    // and the task of every call
    accepted: multiset<T>,
    delivered: multiset<T>,
    finished: multiset<T>,
    discarded: multiset<T>,
    called: seq<T>)
  {
    /** make(chan struct{}, workerCount*2) */
    function Capacity(): nat { 2 * |workers| }
  }

  datatype Event<+T> =
    | Call(task: T) | Check(p: nat) | Push(p: nat) | CountUp(p: nat) | Signal(p: nat)
    | Pop(w: nat, k: nat) | CountDown(w: nat) | Start(w: nat) | End(w: nat)
    | Wake(w: nat) | Stop(w: nat)
    | BeginShutdown | ClearQueue | ZeroMetric | Cancel
    | BeginGraceful | LoadQueued | LoadActive | Deadline

  function Init<T>(workers: nat): State<T>
  {
    State([], 0, 0, 0, false, false, false, seq(workers, _ => Popping), [], Away,
          multiset{}, multiset{}, multiset{}, multiset{}, [])
  }

  predicate Enabled<T(==)>(s: State<T>, e: Event<T>)
  {
    match e
    case Call(_) => true
    case Check(p) => p < |s.posts| && s.posts[p].Entering?
    case Push(p) => p < |s.posts| && s.posts[p].Open?
    case CountUp(p) => p < |s.posts| && s.posts[p].Pushed?
    case Signal(p) => p < |s.posts| && s.posts[p].Counted?
    case Pop(w, k) => w < |s.workers| && s.workers[w].Popping? && (s.queue == [] || k < |s.queue|)
    case CountDown(w) => w < |s.workers| && s.workers[w].Popped?
    case Start(w) => w < |s.workers| && s.workers[w].Held?
    case End(w) => w < |s.workers| && s.workers[w].Running?
    case Wake(w) => w < |s.workers| && s.workers[w].Waiting? && s.signal > 0
    case Stop(w) => w < |s.workers| && s.workers[w].Waiting? && s.cancelled
    case BeginShutdown => true
    case ClearQueue => s.shuttingDown
    case ZeroMetric => s.cleared
    case Cancel => true
    case BeginGraceful => s.waiter == Away
    case LoadQueued => s.waiter == Polling
    case LoadActive => s.waiter == SawNoneQueued
    case Deadline => s.waiter == Polling
  }

  predicate PostEvent<T>(e: Event<T>) { e.Call? || e.Check? || e.Push? || e.CountUp? || e.Signal? }

  predicate WorkerEvent<T>(e: Event<T>)
  {
    e.Pop? || e.CountDown? || e.Start? || e.End? || e.Wake? || e.Stop?
  }

  /** PostInternal. */
  function PostNext<T(==)>(s: State<T>, e: Event<T>): State<T>
    requires PostEvent(e) && Enabled(s, e)
  {
    match e
    case Call(t) => s.(posts := s.posts + [Entering(t)], called := s.called + [t])
    case Check(p) =>
      s.(posts := s.posts[p := if s.shuttingDown then Rejected else Open(s.posts[p].task)])
    case Push(p) =>
      s.(posts := s.posts[p := Pushed], queue := s.queue + [s.posts[p].task],
         accepted := s.accepted + multiset{s.posts[p].task})
    case CountUp(p) =>
      s.(posts := s.posts[p := Counted], metricQueued := s.metricQueued + 1)
    case Signal(p) =>
      s.(posts := s.posts[p := Returned],
         signal := if s.signal < s.Capacity() then s.signal + 1 else s.signal)
  }

  /** GetWork and workerLoop. */
  function WorkerNext<T(==)>(s: State<T>, e: Event<T>): State<T>
    requires WorkerEvent(e) && Enabled(s, e)
  {
    match e
    case Pop(w, k) =>
      if s.queue == [] then s.(workers := s.workers[w := Waiting])
      else s.(workers := s.workers[w := Popped(s.queue[k])], queue := s.queue[..k] + s.queue[k + 1..],
              delivered := s.delivered + multiset{s.queue[k]})
    case CountDown(w) =>
      s.(workers := s.workers[w := Held(s.workers[w].task)], metricQueued := s.metricQueued - 1)
    case Start(w) =>
      s.(workers := s.workers[w := Running(s.workers[w].task)], metricActive := s.metricActive + 1)
    case End(w) =>
      s.(workers := s.workers[w := Popping], metricActive := s.metricActive - 1,
         finished := s.finished + multiset{s.workers[w].task})
    case Wake(w) => s.(workers := s.workers[w := Popping], signal := s.signal - 1)
    case Stop(w) => s.(workers := s.workers[w := Stopped])
  }

  /** Shutdown, ShutdownGraceful and the end of the workers' context. */
  function ShutdownNext<T(==)>(s: State<T>, e: Event<T>): State<T>
    requires !PostEvent(e) && !WorkerEvent(e) && Enabled(s, e)
  {
    match e
    case BeginShutdown => s.(shuttingDown := true)
    case ClearQueue =>
      s.(queue := [], cleared := true, discarded := s.discarded + multiset(s.queue))
    case ZeroMetric => s.(metricQueued := 0)
    case Cancel => s.(cancelled := true)
    case BeginGraceful => s.(shuttingDown := true, waiter := Polling)
    case LoadQueued => s.(waiter := if s.metricQueued == 0 then SawNoneQueued else Polling)
    case LoadActive => s.(waiter := if s.metricActive == 0 then ReturnedNil else Polling)
    case Deadline => s.(waiter := TimedOut)
  }

  function Apply<T(==)>(s: State<T>, e: Event<T>): State<T>
    requires Enabled(s, e)
  {
    if PostEvent(e) then PostNext(s, e) else if WorkerEvent(e) then WorkerNext(s, e) else ShutdownNext(s, e)
  }

  // ----- who is where -----

  function Hunts<T>(w: WorkerPc<T>): nat { if w.Popping? then 1 else 0 }
  function Sleeps<T>(w: WorkerPc<T>): nat { if w.Waiting? then 1 else 0 }
  function Uncounted<T>(w: WorkerPc<T>): nat { if w.Popped? then 1 else 0 }
  function Busy<T>(w: WorkerPc<T>): nat { if w.Running? then 1 else 0 }
  function Owes<T>(p: PostPc<T>): nat { if p.Pushed? || p.Counted? then 1 else 0 }
  function Unrecorded<T>(p: PostPc<T>): nat { if p.Pushed? then 1 else 0 }

  function Hunting<T>(s: State<T>): nat { Sum(s.workers, Hunts) }
  function Sleeping<T>(s: State<T>): nat { Sum(s.workers, Sleeps) }
  function MidPost<T>(s: State<T>): nat { Sum(s.posts, Owes) }

  /** The disjunctive invariant: either every queued task is matched by somebody
      who will look at the queue, or every sleeper has a token waiting for it. */
  ghost predicate Awake<T>(s: State<T>)
  {
    || |s.queue| <= s.signal + Hunting(s) + MidPost(s)
    || Sleeping(s) <= s.signal
  }

  /** The task a worker has in its hands, between its pop and its end. */
  function InHand<T>(w: WorkerPc<T>): multiset<T>
  {
    if w.Popped? || w.Held? || w.Running? then multiset{w.task} else multiset{}
  }

  function InHands<T>(ws: seq<WorkerPc<T>>): multiset<T>
  {
    if ws == [] then multiset{} else InHand(ws[0]) + InHands(ws[1..])
  }

  ghost predicate Conserved<T>(s: State<T>)
  {
    s.accepted == multiset(s.queue) + s.delivered + s.discarded
  }

  ghost predicate HandsAgree<T>(s: State<T>)
  {
    s.delivered == InHands(s.workers) + s.finished
  }

  ghost predicate MetricsAgree<T>(s: State<T>)
  {
    && s.metricActive == Sum(s.workers, Busy)
    && (!s.cleared ==>
          s.metricQueued == |s.queue| + Sum(s.workers, Uncounted) - Sum(s.posts, Unrecorded))
  }

  ghost predicate Inv<T>(s: State<T>)
  {
    Awake(s) && s.signal <= s.Capacity() && Conserved(s) && HandsAgree(s) && MetricsAgree(s)
  }

  lemma InitInv<T>(workers: nat)
    ensures Inv(Init<T>(workers))
  {
    var s := Init<T>(workers);
    SumZero(s.workers, Busy);
    SumZero(s.workers, Uncounted);
    EmptyHands(s.workers);
  }

  lemma {:induction false} EmptyHands<T>(ws: seq<WorkerPc<T>>)
    requires forall w :: 0 <= w < |ws| ==> ws[w].Popping?
    ensures InHands(ws) == multiset{}
  {
    if ws != [] {
      EmptyHands(ws[1..]);
    }
  }

  lemma Regroup<T>(h: multiset<T>, r: multiset<T>, r': multiset<T>, a: multiset<T>, b: multiset<T>)
    requires r' + a == r + b
    ensures (h + r') + a == (h + r) + b
  {
    assert (h + r') + a == h + (r' + a) == h + (r + b);
  }

  lemma {:induction false} HandsChange<T>(ws: seq<WorkerPc<T>>, w: nat, pc: WorkerPc<T>)
    requires w < |ws|
    ensures InHands(ws[w := pc]) + InHand(ws[w]) == InHands(ws) + InHand(pc)
  {
    var moved := ws[w := pc];
    if w == 0 {
      assert moved[1..] == ws[1..];
    } else {
      assert moved[1..] == ws[1..][w - 1 := pc];
      HandsChange(ws[1..], w - 1, pc);
      Regroup(InHand(ws[0]), InHands(ws[1..]), InHands(moved[1..]), InHand(ws[w]), InHand(pc));
    }
  }

  /** What was delivered stays in a hand or is finished. */
  lemma HandsBalance<T>(d: multiset<T>, h: multiset<T>, f: multiset<T>, h': multiset<T>, a: multiset<T>, b: multiset<T>)
    requires d == h + f && h' + a == h + b
    ensures a == b ==> d == h' + f
    ensures a == multiset{} ==> d + b == h' + f
    ensures b == multiset{} ==> d == h' + (f + a)
  {
    assert a == b ==> h' == (h' + a) - a == (h + b) - b == h;
    assert a == multiset{} ==> h' == h' + a;
    assert b == multiset{} ==> h == h + b;
  }

  /** A worker's step keeps each task in its hands, takes one or ends one. */
  lemma WorkerKeepsHands<T>(s: State<T>, e: Event<T>)
    requires HandsAgree(s) && Enabled(s, e) && WorkerEvent(e)
    ensures HandsAgree(WorkerNext(s, e))
  {
    var t := WorkerNext(s, e);
    var was, now := s.workers[e.w], t.workers[e.w];
    HandsChange(s.workers, e.w, now);
    HandFrame(s, e);
    hide InHands, WorkerNext, InHand;
    HandsBalance(s.delivered, InHands(s.workers), s.finished, InHands(t.workers), InHand(was), InHand(now));
  }

  /** Hands and history before and after a worker's step. */
  ghost predicate Handed<T>(s: State<T>, t: State<T>, w: nat)
    requires w < |s.workers| == |t.workers|
  {
    var a, b := InHand(s.workers[w]), InHand(t.workers[w]);
    && t.workers == s.workers[w := t.workers[w]]
    && (|| (a == b && t.delivered == s.delivered && t.finished == s.finished)
        || (a == multiset{} && t.delivered == s.delivered + b && t.finished == s.finished)
        || (b == multiset{} && t.delivered == s.delivered && t.finished == s.finished + a))
  }

  lemma HandFrame<T>(s: State<T>, e: Event<T>)
    requires Enabled(s, e) && WorkerEvent(e)
    ensures Handed(s, WorkerNext(s, e), e.w)
  {
    if e.Pop? { PopHands(s, e); }
    else if e.End? { EndHands(s, e); }
  }

  lemma PopHands<T>(s: State<T>, e: Event<T>)
    requires Enabled(s, e) && e.Pop?
    ensures Handed(s, WorkerNext(s, e), e.w)
  {
  }

  lemma EndHands<T>(s: State<T>, e: Event<T>)
    requires Enabled(s, e) && e.End?
    ensures Handed(s, WorkerNext(s, e), e.w)
  {
  }

  lemma WorkerMoves<T>(s: State<T>, w: nat, pc: WorkerPc<T>)
    requires w < |s.workers|
    ensures var ws := s.workers[w := pc];
            && Sum(ws, Hunts) + Hunts(s.workers[w]) == Hunting(s) + Hunts(pc)
            && Sum(ws, Sleeps) + Sleeps(s.workers[w]) == Sleeping(s) + Sleeps(pc)
            && Sum(ws, Uncounted) + Uncounted(s.workers[w]) == Sum(s.workers, Uncounted) + Uncounted(pc)
            && Sum(ws, Busy) + Busy(s.workers[w]) == Sum(s.workers, Busy) + Busy(pc)
  {
    SumUpdate(s.workers, w, pc, Hunts);
    SumUpdate(s.workers, w, pc, Sleeps);
    SumUpdate(s.workers, w, pc, Uncounted);
    SumUpdate(s.workers, w, pc, Busy);
  }

  lemma PostMoves<T>(s: State<T>, p: nat, pc: PostPc<T>)
    requires p < |s.posts|
    ensures var ps := s.posts[p := pc];
            && Sum(ps, Owes) + Owes(s.posts[p]) == MidPost(s) + Owes(pc)
            && Sum(ps, Unrecorded) + Unrecorded(s.posts[p]) == Sum(s.posts, Unrecorded) + Unrecorded(pc)
  {
    SumUpdate(s.posts, p, pc, Owes);
    SumUpdate(s.posts, p, pc, Unrecorded);
  }

  lemma SleepersAreWorkers<T>(s: State<T>)
    ensures Sleeping(s) <= |s.workers|
  {
    SumBound(s.workers, Sleeps);
  }

  lemma PostStepKeepsInv<T>(s: State<T>, e: Event<T>)
    requires Inv(s) && Enabled(s, e) && PostEvent(e)
    ensures Inv(PostNext(s, e))
  {
    hide Conserved, HandsAgree, Awake, MetricsAgree;
    PostConserves(s, e);
    PostKeepsCounts(s, e);
  }

  lemma PostConserves<T>(s: State<T>, e: Event<T>)
    requires Conserved(s) && HandsAgree(s) && Enabled(s, e) && PostEvent(e)
    ensures Conserved(PostNext(s, e)) && HandsAgree(PostNext(s, e))
  {
    assert HandsAgree(PostNext(s, e)) by { hide Conserved, InHands; }
    hide HandsAgree;
  }

  lemma PostKeepsCounts<T>(s: State<T>, e: Event<T>)
    requires Awake(s) && MetricsAgree(s) && s.signal <= s.Capacity() && Enabled(s, e) && PostEvent(e)
    ensures var t := PostNext(s, e); Awake(t) && MetricsAgree(t) && t.signal <= t.Capacity()
  {
    hide Sum;
    if e.Call? {
      SumAppend(s.posts, Entering(e.task), Owes);
      SumAppend(s.posts, Entering(e.task), Unrecorded);
    } else if e.Signal? {
      SignalKeepsCounts(s, e.p);
    } else {
      PostMoves(s, e.p, PostNext(s, e).posts[e.p]);
    }
  }

  /** The send, or its loss on a full channel: then there is a token for every sleeper. */
  lemma SignalKeepsCounts<T>(s: State<T>, p: nat)
    requires Awake(s) && MetricsAgree(s) && s.signal <= s.Capacity() && Enabled(s, Signal(p))
    ensures var t := PostNext(s, Signal(p)); Awake(t) && MetricsAgree(t) && t.signal <= t.Capacity()
  {
    hide Sum;
    SleepersAreWorkers(s);
    PostMoves(s, p, Returned);
  }

  lemma RemoveAt<T>(q: seq<T>, k: nat)
    requires k < |q|
    ensures multiset(q) == multiset(q[..k] + q[k + 1..]) + multiset{q[k]}
  {
    assert q == q[..k] + ([q[k]] + q[k + 1..]);
  }

  lemma WorkerStepKeepsInv<T>(s: State<T>, e: Event<T>)
    requires Inv(s) && Enabled(s, e) && WorkerEvent(e)
    ensures Inv(WorkerNext(s, e))
  {
    hide Conserved, HandsAgree, Awake, MetricsAgree;
    WorkerKeepsHands(s, e);
    WorkerConserves(s, e);
    WorkerKeepsCounts(s, e);
  }

  lemma WorkerConserves<T>(s: State<T>, e: Event<T>)
    requires Conserved(s) && Enabled(s, e) && WorkerEvent(e)
    ensures Conserved(WorkerNext(s, e))
  {
    if e.Pop? && s.queue != [] {
      RemoveAt(s.queue, e.k);
    }
  }

  lemma WorkerKeepsCounts<T>(s: State<T>, e: Event<T>)
    requires Awake(s) && MetricsAgree(s) && s.signal <= s.Capacity() && Enabled(s, e) && WorkerEvent(e)
    ensures var t := WorkerNext(s, e); Awake(t) && MetricsAgree(t) && t.signal <= t.Capacity()
  {
    hide Sum;
    WorkerMoves(s, e.w, WorkerNext(s, e).workers[e.w]);
  }

  lemma ShutdownStepKeepsInv<T>(s: State<T>, e: Event<T>)
    requires Inv(s) && Enabled(s, e) && !PostEvent(e) && !WorkerEvent(e)
    ensures Inv(ShutdownNext(s, e))
  {
    hide Sum, InHands;
  }

  /** Every atomic step of posters, workers and both shutdowns keeps the invariant. */
  lemma StepKeepsInv<T>(s: State<T>, e: Event<T>)
    requires Inv(s) && Enabled(s, e)
    ensures Inv(Apply(s, e))
  {
    hide Inv, PostNext, WorkerNext, ShutdownNext;
    if PostEvent(e) { PostStepKeepsInv(s, e); }
    else if WorkerEvent(e) { WorkerStepKeepsInv(s, e); }
    else { ShutdownStepKeepsInv(s, e); }
  }

  // ----- runs -----

  function Pool<T(==,!new)>(): Machine<State<T>, Event<T>> { Machine(Enabled<T>, Apply<T>) }

  ghost predicate Reachable<T(!new)>(workers: nat, s: State<T>) { Pool<T>().Reaches(Init<T>(workers), s) }

  lemma ReachableInv<T(!new)>(workers: nat, s: State<T>)
    requires Reachable(workers, s)
    ensures Inv(s)
  {
    hide Inv, Enabled, Apply, Init;
    InitInv<T>(workers);
    forall s: State<T>, e: Event<T> | Inv(s) && Enabled(s, e) ensures Inv(Apply(s, e)) {
      StepKeepsInv(s, e);
    }
    InvariantReached(Pool<T>(), s => Inv(s), Init<T>(workers), s);
  }

  lemma StartReachable<T(!new)>(workers: nat)
    ensures Reachable(workers, Init<T>(workers))
  {
    ReachesItself(Pool<T>(), Init<T>(workers));
  }

  lemma Step<T(!new)>(workers: nat, s: State<T>, e: Event<T>) returns (t: State<T>)
    requires Reachable(workers, s) && Enabled(s, e)
    ensures t == Apply(s, e) && Reachable(workers, t)
  {
    hide Enabled, Apply, Init;
    t := Apply(s, e);
    ReachesNext(Pool<T>(), Init<T>(workers), s, e);
  }

  /** Dropping a signal on the full channel is harmless: in every reachable state
      either every queued task is matched by a token, a hunting worker or a poster
      that has yet to send, or every sleeper has a token; so a queued task beside a
      sleeping worker is never left without somebody to fetch it. */
  lemma NoStrandedTask<T(!new)>(workers: nat, s: State<T>)
    requires Reachable(workers, s)
    ensures |s.queue| <= s.signal + Hunting(s) + MidPost(s) || Sleeping(s) <= s.signal
    ensures s.queue != [] && (exists w :: 0 <= w < |s.workers| && s.workers[w].Waiting?) ==>
              s.signal > 0 || Hunting(s) > 0 || MidPost(s) > 0
  {
    ReachableInv(workers, s);
    if w :| 0 <= w < |s.workers| && s.workers[w].Waiting? {
      SumAt(s.workers, w, Sleeps);
    }
  }

  /** What was pushed is, once, in the queue, in the hands of a worker, ended, or
      thrown away by Shutdown. */
  lemma NothingLostOrDoubled<T(!new)>(workers: nat, s: State<T>)
    requires Reachable(workers, s)
    ensures s.accepted == multiset(s.queue) + InHands(s.workers) + s.finished + s.discarded
    ensures s.delivered == InHands(s.workers) + s.finished
  {
    ReachableInv(workers, s);
  }

  // ----- the pool drains -----

  /** Steps the pool takes by itself: no new post, no shutdown. */
  predicate Internal<T>(e: Event<T>)
  {
    e.Check? || e.Push? || e.CountUp? || e.Signal? || e.Pop? || e.CountDown? || e.Start? || e.End? || e.Wake? || e.Stop?
  }

  ghost predicate Quiescent<T(!new)>(s: State<T>)
  {
    forall e :: Internal(e) ==> !Enabled(s, e)
  }

  function WorkerWork<T>(w: WorkerPc<T>): nat
  {
    match w
    case Stopped => 0 case Waiting => 1 case Popping => 2
    case Running(_) => 3 case Held(_) => 4 case Popped(_) => 5
  }

  function PostWork<T>(p: PostPc<T>): nat
  {
    match p
    case Entering(_) => 10 case Open(_) => 9 case Pushed => 4 case Counted => 3
    case Returned => 0 case Rejected => 0
  }

  function Work<T>(s: State<T>): nat
  {
    Sum(s.posts, PostWork) + Sum(s.workers, WorkerWork) + 4 * |s.queue| + 2 * s.signal
  }

  lemma PostStepSpendsWork<T>(s: State<T>, e: Event<T>)
    requires Enabled(s, e) && (e.Check? || e.Push? || e.CountUp? || e.Signal?)
    ensures Work(Apply(s, e)) < Work(s)
  {
    SumUpdate(s.posts, e.p, Apply(s, e).posts[e.p], PostWork);
  }

  lemma WorkerStepSpendsWork<T>(s: State<T>, e: Event<T>)
    requires Enabled(s, e) && WorkerEvent(e)
    ensures Work(Apply(s, e)) < Work(s)
  {
    if e.Pop? {
      PopSpendsWork(s, e.w, e.k);
    } else {
      SumUpdate(s.workers, e.w, WorkerNext(s, e).workers[e.w], WorkerWork);
    }
  }

  lemma PopSpendsWork<T>(s: State<T>, w: nat, k: nat)
    requires Enabled(s, Pop(w, k))
    ensures Work(WorkerNext(s, Pop(w, k))) < Work(s)
  {
    SumUpdate(s.workers, w, WorkerNext(s, Pop(w, k)).workers[w], WorkerWork);
  }

  lemma InternalStepsSpendWork<T>(s: State<T>, e: Event<T>)
    requires Enabled(s, e) && Internal(e)
    ensures Work(Apply(s, e)) < Work(s)
  {
    hide Enabled, Apply, Work;
    if e.Check? || e.Push? || e.CountUp? || e.Signal? {
      PostStepSpendsWork(s, e);
    } else {
      WorkerStepSpendsWork(s, e);
    }
  }

  lemma {:induction false} InternalRunsAreBounded<T(!new)>(s: State<T>, es: seq<Event<T>>)
    requires Pool<T>().Legal(s, es) && forall i :: 0 <= i < |es| ==> Internal(es[i])
    ensures |es| <= Work(s)
    decreases |es|
  {
    hide Work, Enabled, Apply, Internal;
    if es != [] {
      InternalStepsSpendWork(s, es[0]);
      InternalRunsAreBounded(Apply(s, es[0]), es[1..]);
    }
  }

  lemma QuiescentQueueIsEmpty<T(!new)>(s: State<T>)
    requires Inv(s) && Quiescent(s)
    requires exists w :: 0 <= w < |s.workers| && !s.workers[w].Stopped?
    ensures s.queue == []
  {
    forall p | 0 <= p < |s.posts| ensures Owes(s.posts[p]) == 0 {
      assert !Enabled(s, CountUp(p));
      assert !Enabled(s, Signal(p));
    }
    SumZero(s.posts, Owes);
    forall w | 0 <= w < |s.workers| ensures s.workers[w].Waiting? || s.workers[w].Stopped? {
      assert !Enabled(s, Pop(w, 0));
      assert !Enabled(s, CountDown(w)) && !Enabled(s, Start(w)) && !Enabled(s, End(w));
    }
    SumZero(s.workers, Hunts);
    var w :| 0 <= w < |s.workers| && !s.workers[w].Stopped?;
    assert !Enabled(s, Wake(w));
    SumAt(s.workers, w, Sleeps);
  }

  /** From any reachable state, when nobody posts any more and task bodies end,
      the pool stops after at most Work(s) steps, and it can stop only with an
      empty queue (unless every worker has been told to stop). */
  lemma PoolDrains<T(!new)>(workers: nat, s: State<T>, more: seq<Event<T>>)
    requires Reachable(workers, s)
    requires Pool<T>().Legal(s, more) && forall i :: 0 <= i < |more| ==> Internal(more[i])
    ensures |more| <= Work(s)
    ensures var t := Pool<T>().After(s, more);
            Quiescent(t) && (exists w :: 0 <= w < |t.workers| && !t.workers[w].Stopped?) ==> t.queue == []
  {
    hide Work, Enabled, Apply, Internal, Quiescent, Init, Inv;
    InternalRunsAreBounded(s, more);
    var t := Pool<T>().After(s, more);
    ReachesOn(Pool<T>(), Init<T>(workers), s, more);
    ReachableInv(workers, t);
    if Quiescent(t) && exists w :: 0 <= w < |t.workers| && !t.workers[w].Stopped? {
      QuiescentQueueIsEmpty(t);
    }
  }

  // ----- what a nil result of ShutdownGraceful means -----

  ghost predicate NoTaskLeft<T>(s: State<T>)
  {
    && s.queue == []
    && forall w :: 0 <= w < |s.workers| ==>
         !s.workers[w].Popped? && !s.workers[w].Held? && !s.workers[w].Running?
  }

  predicate NobodyHeld<T>(s: State<T>) { forall w :: 0 <= w < |s.workers| ==> !s.workers[w].Held? }

  /** ShutdownGraceful loads metricQueued and metricActive one after the other. When
      the second load makes it return nil, all work is done if and only if no worker
      is between the pop's decrement and OnTaskStart, and nothing has been pushed
      since the first load that is still queued: metricQueued and the pushes not yet
      counted add up to zero. */
  lemma NilMeansDoneIff<T(!new)>(workers: nat, s: State<T>)
    requires Reachable(workers, s) && !s.cleared
    requires s.waiter == SawNoneQueued && s.metricActive == 0
    ensures Enabled(s, LoadActive) && Apply(s, LoadActive).waiter == ReturnedNil
    ensures NoTaskLeft(Apply(s, LoadActive)) <==> NobodyHeld(s) && s.metricQueued + Sum(s.posts, Unrecorded) == 0
  {
    ReachableInv(workers, s);
    if NoTaskLeft(s) {
      SumZero(s.workers, Uncounted);
    }
    if NobodyHeld(s) && s.metricQueued + Sum(s.posts, Unrecorded) == 0 {
      forall w | 0 <= w < |s.workers| ensures !s.workers[w].Popped? && !s.workers[w].Running? {
        SumAt(s.workers, w, Uncounted);
        SumAt(s.workers, w, Busy);
      }
    }
  }

  predicate Late<T>(p: PostPc<T>) { p.Open? || p.Pushed? || p.Counted? }

  /** No call of PostInternal is past its check and not yet back. */
  predicate NobodyLate<T>(s: State<T>) { forall p :: 0 <= p < |s.posts| ==> !Late(s.posts[p]) }

  ghost predicate Closing<T>(s: State<T>)
  {
    && Inv(s) && s.shuttingDown && NobodyLate(s)
    && (!s.cleared && s.waiter == SawNoneQueued ==> s.metricQueued == 0)
  }

  lemma ClosingStays<T>(s: State<T>, e: Event<T>)
    requires Closing(s) && Enabled(s, e)
    ensures Closing(Apply(s, e))
  {
    StepKeepsInv(s, e);
    hide Inv, PostNext, WorkerNext, ShutdownNext;
    if PostEvent(e) { ClosingPosts(s, e); }
    else if WorkerEvent(e) { ClosingWorkers(s, e); }
    else { ClosingShutdown(s, e); }
  }

  lemma ClosingPosts<T>(s: State<T>, e: Event<T>)
    requires Closing(s) && Enabled(s, e) && PostEvent(e)
    ensures var t := PostNext(s, e);
            && t.shuttingDown && NobodyLate(t) && t.waiter == s.waiter && t.metricQueued == s.metricQueued
            && t.cleared == s.cleared
  {
    hide Inv;
  }

  lemma ClosingWorkers<T>(s: State<T>, e: Event<T>)
    requires Closing(s) && Enabled(s, e) && WorkerEvent(e)
    ensures var t := WorkerNext(s, e);
            && t.shuttingDown && NobodyLate(t) && t.waiter == s.waiter && t.cleared == s.cleared
            && (!t.cleared && t.waiter == SawNoneQueued ==> t.metricQueued == 0)
  {
    if e.CountDown? {
      SumAt(s.workers, e.w, Uncounted);
      SumZero(s.posts, Unrecorded);
    }
    hide Awake, Conserved, HandsAgree;
  }

  lemma ClosingShutdown<T>(s: State<T>, e: Event<T>)
    requires Closing(s) && Enabled(s, e) && !PostEvent(e) && !WorkerEvent(e)
    ensures var t := ShutdownNext(s, e);
            && t.shuttingDown && NobodyLate(t) && (!t.cleared && t.waiter == SawNoneQueued ==> t.metricQueued == 0)
  {
    hide Inv;
  }

  /** When no post was under way as ShutdownGraceful began, the second window cannot
      open: a nil result means that all work is done exactly unless a worker is
      between the pop's decrement and OnTaskStart. */
  lemma NilWithoutLatePostsIff<T(!new)>(workers: nat, s: State<T>, t: State<T>)
    requires Reachable(workers, s) && NobodyLate(s) && s.waiter == Away
    requires Pool<T>().Reaches(Apply(s, BeginGraceful), t)
    requires !t.cleared && t.waiter == SawNoneQueued && t.metricActive == 0
    ensures NoTaskLeft(Apply(t, LoadActive)) <==> NobodyHeld(t)
  {
    hide Closing, Reachable, NoTaskLeft, NobodyHeld, Apply;
    ClosingReached(workers, s, t);
    NilMeansDoneIff(workers, t);
  }

  lemma ClosingReached<T(!new)>(workers: nat, s: State<T>, t: State<T>)
    requires Reachable(workers, s) && NobodyLate(s) && s.waiter == Away
    requires Pool<T>().Reaches(Apply(s, BeginGraceful), t)
    ensures Reachable(workers, t) && Closing(t) && Sum(t.posts, Unrecorded) == 0
    ensures !t.cleared && t.waiter == SawNoneQueued ==> t.metricQueued == 0
  {
    hide Closing, Enabled, Apply, Init, Machine.Reaches;
    ClosingBegins(workers, s);
    var u := Apply(s, BeginGraceful);
    forall s: State<T>, e: Event<T> | Closing(s) && Enabled(s, e) ensures Closing(Apply(s, e)) {
      ClosingStays(s, e);
    }
    InvariantReached(Pool<T>(), s => Closing(s), u, t);
    ReachesFurther(Pool<T>(), Init<T>(workers), u, t);
    ClosingMeans(t);
  }

  lemma ClosingBegins<T(!new)>(workers: nat, s: State<T>)
    requires Reachable(workers, s) && NobodyLate(s) && s.waiter == Away
    ensures Enabled(s, BeginGraceful) && Closing(Apply(s, BeginGraceful)) && Reachable(workers, Apply(s, BeginGraceful))
  {
    hide Reachable, Inv;
    ReachableInv(workers, s);
    StepKeepsInv(s, BeginGraceful);
    var t := Step(workers, s, BeginGraceful);
  }

  lemma ClosingMeans<T>(t: State<T>)
    requires Closing(t)
    ensures Sum(t.posts, Unrecorded) == 0
    ensures !t.cleared && t.waiter == SawNoneQueued ==> t.metricQueued == 0
  {
    SumZero(t.posts, Unrecorded);
  }

  lemma OnePostOpen(t: nat) returns (s: State<nat>)
    ensures Reachable(1, s) && !s.shuttingDown && !s.cleared && s.waiter == Away
    ensures s.queue == [] && s.workers == [Popping] && s.posts == [Open(t)] && s.metricQueued == 0
            && s.metricActive == 0
  {
    hide Reachable;
    var s0 := Init<nat>(1);
    StartReachable<nat>(1);
    assert s0.workers == [Popping];
    var s1 := Step(1, s0, Call(t));
    assert s1.posts == [Entering(t)];
    s := Step(1, s1, Check(0));
  }

  lemma OneTaskQueued(t: nat) returns (s: State<nat>)
    ensures Reachable(1, s) && !s.shuttingDown && !s.cleared && s.waiter == Away
    ensures s.queue == [t] && s.workers == [Popping] && s.metricQueued == 1 && s.metricActive == 0
  {
    hide Reachable;
    var s0 := OnePostOpen(t);
    var s1 := Step(1, s0, Push(0));
    assert s1.posts == [Pushed];
    s := Step(1, s1, CountUp(0));
  }

  lemma OneTaskHeld(t: nat) returns (s: State<nat>)
    ensures Reachable(1, s) && !s.cleared && s.waiter == Polling
    ensures s.workers == [Held(t)] && s.metricQueued == 0 && s.metricActive == 0
  {
    hide Reachable;
    var s0 := OneTaskQueued(t);
    var s1 := Step(1, s0, Pop(0, 0));
    assert s1.workers == [Popped(t)];
    var s2 := Step(1, s1, BeginGraceful);
    s := Step(1, s2, CountDown(0));
  }

  /** A run through the first window: nil while an accepted task has been popped and
      has not begun. */
  lemma NilWhileATaskIsHeld(t: nat)
    ensures exists s: State<nat> :: Reachable(1, s) && !s.cleared && s.waiter == ReturnedNil && s.workers == [Held(t)]
  {
    hide Reachable;
    var s0 := OneTaskHeld(t);
    var s1 := Step(1, s0, LoadQueued);
    var s2 := Step(1, s1, LoadActive);
  }

  lemma LatePush(t: nat) returns (s: State<nat>)
    ensures Reachable(1, s) && !s.cleared && s.waiter == SawNoneQueued
    ensures s.queue == [t] && s.workers == [Popping] && s.metricActive == 0
  {
    hide Reachable;
    var s0 := OnePostOpen(t);
    var s1 := Step(1, s0, BeginGraceful);
    var s2 := Step(1, s1, LoadQueued);
    s := Step(1, s2, Push(0));
  }

  /** A run through the second window: a post that was past its check as the shutdown
      began pushes between the two loads, and nil comes back with its task queued. */
  lemma NilWhileATaskIsQueued(t: nat)
    ensures exists s: State<nat> ::
              Reachable(1, s) && !s.cleared && s.waiter == ReturnedNil && s.queue == [t] && NobodyHeld(s)
  {
    hide Reachable;
    var s0 := LatePush(t);
    var s1 := Step(1, s0, LoadActive);
    assert NobodyHeld(s1);
  }

  // ----- the scheduler itself -----

  lemma WakeApplies<T>(s: State<T>, w: nat)
    requires Enabled(s, Wake(w))
    ensures Apply(s, Wake(w)) == s.(workers := s.workers[w := Popping], signal := s.signal - 1)
  {
  }

  lemma StopApplies<T>(s: State<T>, w: nat)
    requires Enabled(s, Stop(w))
    ensures Apply(s, Stop(w)) == s.(workers := s.workers[w := Stopped])
  {
  }

  class TaskScheduler<T(==,!new)> {
    const workerCount: nat
    var queue: seq<T>
    var signal: nat                    // tokens in the channel
    var metricQueued: int
    var metricActive: int
    var shuttingDown: bool
    var cleared: bool
    var stopCh: bool                   // the workers' context has ended
    var workers: seq<WorkerPc<T>>      // the worker goroutines, with their local state
    var posts: seq<PostPc<T>>          // the calls of PostInternal, with theirs
    var waiter: Waiter                 // the call of ShutdownGraceful
    ghost var accepted: multiset<T>
    ghost var delivered: multiset<T>
    ghost var finished: multiset<T>
    ghost var discarded: multiset<T>
    ghost var called: seq<T>

    ghost function Snapshot(): State<T>
      reads this
    {
      State(queue, signal, metricQueued, metricActive, shuttingDown, cleared, stopCh, workers, posts, waiter,
            accepted, delivered, finished, discarded, called)
    }

    /** The fields are those of a reachable state, so everything above holds of them. */
    ghost predicate Valid()
      reads this
    {
      Reachable(workerCount, Snapshot())
    }

    constructor (count: nat)
      ensures Valid() && workerCount == count && Snapshot() == Init(count)
    {
      workerCount := count;
      queue, signal, metricQueued, metricActive := [], 0, 0, 0;
      shuttingDown, cleared, stopCh := false, false, false;
      workers, posts, waiter := seq(count, _ => Popping), [], Away;
      accepted, delivered, finished, discarded, called := multiset{}, multiset{}, multiset{}, multiset{}, [];
      new;
      StartReachable<T>(count);
    }

    method PostInternal(task: T) returns (p: nat)
      requires Valid()
      modifies this
      ensures Valid() && p == |old(posts)| && Snapshot() == Apply(old(Snapshot()), Call(task))
    {
      hide Reachable, WorkerNext, ShutdownNext;
      ghost var t := Step(workerCount, Snapshot(), Call(task));
      p := |posts|;
      posts, called := posts + [Entering(task)], called + [task];
    }

    method LoadShuttingDown(p: nat)
      requires Valid() && p < |posts| && posts[p].Entering?
      modifies this
      ensures Valid() && Snapshot() == Apply(old(Snapshot()), Check(p))
    {
      hide Reachable, WorkerNext, ShutdownNext;
      ghost var t := Step(workerCount, Snapshot(), Check(p));
      if shuttingDown {
        posts := posts[p := Rejected];
      } else {
        posts := posts[p := Open(posts[p].task)];
      }
    }

    method PushTask(p: nat)
      requires Valid() && p < |posts| && posts[p].Open?
      modifies this
      ensures Valid() && Snapshot() == Apply(old(Snapshot()), Push(p))
    {
      hide Reachable, WorkerNext, ShutdownNext;
      ghost var t := Step(workerCount, Snapshot(), Push(p));
      queue := queue + [posts[p].task];
      accepted := accepted + multiset{posts[p].task};
      posts := posts[p := Pushed];
    }

    method CountQueued(p: nat)
      requires Valid() && p < |posts| && posts[p].Pushed?
      modifies this
      ensures Valid() && Snapshot() == Apply(old(Snapshot()), CountUp(p))
    {
      hide Reachable, WorkerNext, ShutdownNext;
      ghost var t := Step(workerCount, Snapshot(), CountUp(p));
      metricQueued := metricQueued + 1;
      posts := posts[p := Counted];
    }

    /** The non-blocking send: on a full channel the signal is dropped. */
    method TrySignal(p: nat)
      requires Valid() && p < |posts| && posts[p].Counted?
      modifies this
      ensures Valid() && Snapshot() == Apply(old(Snapshot()), Signal(p))
    {
      hide Reachable, WorkerNext, ShutdownNext;
      ghost var t := Step(workerCount, Snapshot(), Signal(p));
      if signal < 2 * |workers| {
        signal := signal + 1;
      }
      posts := posts[p := Returned];
    }

    /** The head of GetWork's loop: pop one task, or go to the select. k is the
        position the queue discipline picks. */
    method TryPop(w: nat, k: nat)
      requires Valid() && w < |workers| && workers[w].Popping? && (queue == [] || k < |queue|)
      modifies this
      ensures Valid() && Snapshot() == Apply(old(Snapshot()), Pop(w, k))
    {
      hide Reachable, PostNext, ShutdownNext;
      ghost var t := Step(workerCount, Snapshot(), Pop(w, k));
      if |queue| == 0 {
        workers := workers[w := Waiting];
      } else {
        var task := queue[k];
        queue := queue[..k] + queue[k + 1..];
        workers := workers[w := Popped(task)];
        delivered := delivered + multiset{task};
      }
    }

    method CountPopped(w: nat)
      requires Valid() && w < |workers| && workers[w].Popped?
      modifies this
      ensures Valid() && Snapshot() == Apply(old(Snapshot()), CountDown(w))
    {
      hide Reachable, PostNext, ShutdownNext;
      ghost var t := Step(workerCount, Snapshot(), CountDown(w));
      metricQueued := metricQueued - 1;
      workers := workers[w := Held(workers[w].task)];
    }

    method OnTaskStart(w: nat)
      requires Valid() && w < |workers| && workers[w].Held?
      modifies this
      ensures Valid() && Snapshot() == Apply(old(Snapshot()), Start(w))
    {
      hide Reachable, PostNext, ShutdownNext;
      ghost var t := Step(workerCount, Snapshot(), Start(w));
      metricActive := metricActive + 1;
      workers := workers[w := Running(workers[w].task)];
    }

    /** The task has returned or panicked: the deferred step runs either way. */
    method OnTaskEnd(w: nat)
      requires Valid() && w < |workers| && workers[w].Running?
      modifies this
      ensures Valid() && Snapshot() == Apply(old(Snapshot()), End(w))
    {
      hide Reachable, PostNext, ShutdownNext;
      ghost var t := Step(workerCount, Snapshot(), End(w));
      metricActive := metricActive - 1;
      finished := finished + multiset{workers[w].task};
      workers := workers[w := Popping];
    }

    /** GetWork's select, once one of its arms is ready. */
    method Select(w: nat)
      requires Valid() && w < |workers| && workers[w].Waiting? && (signal > 0 || stopCh)
      modifies this
      ensures Valid()
      ensures || (old(signal) > 0 && Snapshot() == Apply(old(Snapshot()), Wake(w)))
              || (old(stopCh) && Snapshot() == Apply(old(Snapshot()), Stop(w)))
    {
      hide Reachable, Apply;
      if {
        case signal > 0 =>
          ghost var t := Step(workerCount, Snapshot(), Wake(w));
          WakeApplies(Snapshot(), w);
          hide Enabled;
          signal := signal - 1;
          workers := workers[w := Popping];
        case stopCh =>
          ghost var t := Step(workerCount, Snapshot(), Stop(w));
          StopApplies(Snapshot(), w);
          hide Enabled;
          workers := workers[w := Stopped];
      }
    }

    /** The stores of Shutdown, in order. */
    method MarkShuttingDown()
      requires Valid()
      modifies this
      ensures Valid() && Snapshot() == Apply(old(Snapshot()), BeginShutdown)
    {
      hide Reachable, PostNext, WorkerNext;
      ghost var t := Step(workerCount, Snapshot(), BeginShutdown);
      shuttingDown := true;
    }

    method ClearTasks()
      requires Valid() && shuttingDown
      modifies this
      ensures Valid() && Snapshot() == Apply(old(Snapshot()), ClearQueue)
    {
      hide Reachable, PostNext, WorkerNext;
      ghost var t := Step(workerCount, Snapshot(), ClearQueue);
      discarded := discarded + multiset(queue);
      queue, cleared := [], true;
    }

    method ResetQueued()
      requires Valid() && cleared
      modifies this
      ensures Valid() && Snapshot() == Apply(old(Snapshot()), ZeroMetric)
    {
      hide Reachable, PostNext, WorkerNext;
      ghost var t := Step(workerCount, Snapshot(), ZeroMetric);
      metricQueued := 0;
    }

    method CancelWorkers()
      requires Valid()
      modifies this
      ensures Valid() && Snapshot() == Apply(old(Snapshot()), Cancel)
    {
      hide Reachable, PostNext, WorkerNext;
      ghost var t := Step(workerCount, Snapshot(), Cancel);
      stopCh := true;
    }

    /** ShutdownGraceful: its store, */
    method BeginShutdownGraceful()
      requires Valid() && waiter == Away
      modifies this
      ensures Valid() && Snapshot() == Apply(old(Snapshot()), BeginGraceful)
    {
      hide Reachable, PostNext, WorkerNext;
      ghost var t := Step(workerCount, Snapshot(), BeginGraceful);
      shuttingDown, waiter := true, Polling;
    }

    /** a tick: QueuedTaskCount() == 0, */
    method PollQueued()
      requires Valid() && waiter == Polling
      modifies this
      ensures Valid() && Snapshot() == Apply(old(Snapshot()), LoadQueued)
    {
      hide Reachable, PostNext, WorkerNext;
      ghost var t := Step(workerCount, Snapshot(), LoadQueued);
      if metricQueued == 0 {
        waiter := SawNoneQueued;
      }
    }

    /** and then ActiveTaskCount() == 0, */
    method PollActive()
      requires Valid() && waiter == SawNoneQueued
      modifies this
      ensures Valid() && Snapshot() == Apply(old(Snapshot()), LoadActive)
    {
      hide Reachable, PostNext, WorkerNext;
      ghost var t := Step(workerCount, Snapshot(), LoadActive);
      if metricActive == 0 {
        waiter := ReturnedNil;
      } else {
        waiter := Polling;
      }
    }

    /** or the deadline, after which the queue is cleared. */
    method PassDeadline()
      requires Valid() && waiter == Polling
      modifies this
      ensures Valid() && Snapshot() == Apply(old(Snapshot()), Deadline)
    {
      hide Reachable, PostNext, WorkerNext;
      ghost var t := Step(workerCount, Snapshot(), Deadline);
      waiter := TimedOut;
    }
  }
}
