/** The SingleThreadTaskRunner (core/single_thread_task_runner.go): one goroutine
    behind a channel of 100, three policies for a full channel. One event per
    atomic load, channel operation and select. */
module SingleThreadRunner {
  import opened Counting
  import opened Runs
  import opened FifoRunner

  datatype QueuePolicy = Drop | Reject | Wait

  const CHANNEL_CAPACITY: nat := 100

  /** Where a call of enqueueTask stands. */
  datatype PostPc<+T> =
    | Entering(task: T)                       // about to load closed
    | Reading(task: T)                        // about to read the policy
    | Sending(task: T, policy: QueuePolicy)   // in the select
    | Accepted
    | Ignored                                 // saw the runner closed or its context done
    | Rejected

  datatype State<T> = State(
    workQueue: seq<T>,
    queuePolicy: QueuePolicy,
    closed: bool,
    ctxDone: bool,
    stopped: bool,
    rejectedCount: nat,
    executing: Option<T>,
    posts: seq<PostPc<T>>,
    // history: what was sent into the channel, what has run, the task of every call,
    // and the calls in the order of their sends
    sent: seq<T>,
    executed: seq<T>,
    called: seq<T>,
    order: seq<nat>)

  datatype Event<+T> =
    | Call(task: T) | LoadClosed(p: nat) | ReadPolicy(p: nat)
    | Send(p: nat) | SeeDone(p: nat) | Default(p: nat)
    | Receive | EndTask | Exit
    | SetPolicy(policy: QueuePolicy) | MarkClosed | Cancel

  function Init<T>(): State<T> { State([], Drop, false, false, false, 0, None, [], [], [], [], []) }

  predicate InSelect<T(==)>(s: State<T>, p: nat) { p < |s.posts| && s.posts[p].Sending? }

  /** The select of Reject has a default, which fires only when nothing else can. */
  predicate Enabled<T(==)>(s: State<T>, e: Event<T>)
  {
    match e
    case Call(_) => true
    case LoadClosed(p) => p < |s.posts| && s.posts[p].Entering?
    case ReadPolicy(p) => p < |s.posts| && s.posts[p].Reading?
    case Send(p) => InSelect(s, p) && |s.workQueue| < CHANNEL_CAPACITY
    case SeeDone(p) => InSelect(s, p) && s.ctxDone
    case Default(p) => InSelect(s, p) && s.posts[p].policy.Reject? && |s.workQueue| >= CHANNEL_CAPACITY && !s.ctxDone
    case Receive => !s.stopped && s.executing.None? && s.workQueue != []
    case EndTask => s.executing.Some?
    case Exit => !s.stopped && s.executing.None? && s.ctxDone
    case SetPolicy(_) => true
    case MarkClosed => true
    case Cancel => s.closed
  }

  function MovePost<T>(s: State<T>, p: nat, pc: PostPc<T>): State<T>
    requires p < |s.posts|
  {
    s.(posts := s.posts[p := pc])
  }

  function Apply<T(==)>(s: State<T>, e: Event<T>): State<T>
    requires Enabled(s, e)
  {
    match e
    case Call(t) => s.(posts := s.posts + [Entering(t)], called := s.called + [t])
    case LoadClosed(p) => MovePost(s, p, if s.closed then Ignored else Reading(s.posts[p].task))
    case ReadPolicy(p) => MovePost(s, p, Sending(s.posts[p].task, s.queuePolicy))
    case Send(p) =>
      MovePost(s, p, Accepted).(workQueue := s.workQueue + [s.posts[p].task], sent := s.sent + [s.posts[p].task],
                                order := s.order + [p])
    case SeeDone(p) => MovePost(s, p, Ignored)
    case Default(p) => MovePost(s, p, Rejected).(rejectedCount := s.rejectedCount + 1)
    case Receive => s.(executing := Some(s.workQueue[0]), workQueue := s.workQueue[1..])
    case EndTask => s.(executed := s.executed + [s.executing.value], executing := None)
    case Exit => s.(stopped := true)
    case SetPolicy(policy) => s.(queuePolicy := policy)
    case MarkClosed => s.(closed := true)
    case Cancel => s.(ctxDone := true)
  }

  function Runner<T(==,!new)>(): Machine<State<T>, Event<T>> { Machine(Enabled<T>, Apply<T>) }

  ghost predicate Reachable<T(!new)>(s: State<T>) { Runner<T>().Reaches(Init<T>(), s) }

  // ----- the invariant -----

  function IsRejected<T>(p: PostPc<T>): nat { if p.Rejected? then 1 else 0 }
  function IsAccepted<T>(p: PostPc<T>): nat { if p.Accepted? then 1 else 0 }

  function Abs<T>(s: State<T>): Fifo<T> { Fifo(s.executed, s.executing, s.workQueue) }

  ghost predicate Inv<T>(s: State<T>)
  {
    && |s.workQueue| <= CHANNEL_CAPACITY
    && Abs(s).Log() == s.sent
    && |s.sent| == Sum(s.posts, IsAccepted)
    && s.rejectedCount == Sum(s.posts, IsRejected)
    && (s.ctxDone ==> s.closed) && (s.stopped ==> s.ctxDone && s.executing.None?)
    && (!s.closed ==> forall p :: 0 <= p < |s.posts| ==> !s.posts[p].Ignored?)
  }

  lemma PostMoves<T>(s: State<T>, p: nat, pc: PostPc<T>)
    requires p < |s.posts|
    ensures var ps := s.posts[p := pc];
            && Sum(ps, IsAccepted) + IsAccepted(s.posts[p]) == Sum(s.posts, IsAccepted) + IsAccepted(pc)
            && Sum(ps, IsRejected) + IsRejected(s.posts[p]) == Sum(s.posts, IsRejected) + IsRejected(pc)
  {
    SumUpdate(s.posts, p, pc, IsAccepted);
    SumUpdate(s.posts, p, pc, IsRejected);
  }

  predicate PostEvent<T>(e: Event<T>)
  {
    e.Call? || e.LoadClosed? || e.ReadPolicy? || e.Send? || e.SeeDone? || e.Default?
  }

  lemma PostKeepsInv<T>(s: State<T>, e: Event<T>)
    requires Inv(s) && Enabled(s, e) && PostEvent(e)
    ensures Inv(Apply(s, e))
  {
    var t := Apply(s, e);
    if e.Call? {
      SumAppend(s.posts, Entering(e.task), IsAccepted);
      SumAppend(s.posts, Entering(e.task), IsRejected);
    } else {
      PostMoves(s, e.p, t.posts[e.p]);
    }
    if e.Send? {
      LogOnlyGrows(Abs(s));
      assert Abs(t) == Post(Abs(s), s.posts[e.p].task);
    } else {
      assert Abs(t) == Abs(s);
    }
  }

  lemma LoopKeepsInv<T>(s: State<T>, e: Event<T>)
    requires Inv(s) && Enabled(s, e) && !PostEvent(e)
    ensures Inv(Apply(s, e))
  {
    LogOnlyGrows(Abs(s));
    var t := Apply(s, e);
    if e.Receive? {
      assert Abs(t) == Begin(Abs(s));
    } else if e.EndTask? {
      assert Abs(t) == End(Abs(s));
    } else {
      assert Abs(t) == Abs(s);
    }
  }

  lemma InitInv<T>()
    ensures Inv(Init<T>())
  {
    assert Abs(Init<T>()).Log() == [];
  }

  lemma ReachableInv<T(!new)>(s: State<T>)
    requires Reachable(s)
    ensures Inv(s)
  {
    hide Inv, Enabled, Apply, Init;
    InitInv<T>();
    forall s: State<T>, e: Event<T> | Inv(s) && Enabled(s, e) ensures Inv(Apply(s, e)) {
      if PostEvent(e) { PostKeepsInv(s, e); } else { LoopKeepsInv(s, e); }
    }
    InvariantReached(Runner<T>(), s => Inv(s), Init<T>(), s);
  }

  // ----- what every run guarantees -----

  /** Tasks run one at a time in the order in which they entered the channel, which
      never holds more than its capacity. */
  lemma RunsInSendOrder<T(!new)>(s: State<T>)
    requires Reachable(s)
    ensures s.executed + AsSeq(s.executing) + s.workQueue == s.sent
    ensures |s.workQueue| <= CHANNEL_CAPACITY
  {
    ReachableInv(s);
  }

  /** Every step is a step of the abstract FIFO runner, or none: this is what the
      parallel runner's internal scheduler relies on. */
  lemma Refines<T(!new)>(s: State<T>, e: Event<T>)
    requires Enabled(s, e)
    ensures FifoRunner.Steps(Abs(s), Abs(Apply(s, e)))
  {
    var t := Apply(s, e);
    if e.Send? {
      assert Abs(t) == Post(Abs(s), s.posts[e.p].task);
    } else if e.Receive? {
      assert Abs(t) == Begin(Abs(s));
    } else if e.EndTask? {
      assert Abs(t) == End(Abs(s));
    } else {
      assert Abs(t) == Abs(s);
    }
  }

  /** Only Reject turns a call away: on an open runner no call has been ignored,
      rejectedCount counts the rejected ones, and a call of another policy that faces a
      full channel with a live context stays where it is, whatever happens next. */
  lemma OnlyRejectTurnsAway<T(!new)>(s: State<T>)
    requires Reachable(s)
    ensures s.rejectedCount == Sum(s.posts, IsRejected)
    ensures !s.closed ==> forall p :: 0 <= p < |s.posts| ==> !s.posts[p].Ignored?
    ensures forall e, p :: Enabled(s, e) && Blocked(s, p) ==> Apply(s, e).posts[p] == s.posts[p]
  {
    ReachableInv(s);
  }

  /** A call in the select, without the Reject policy, on a full channel. */
  predicate Blocked<T(==)>(s: State<T>, p: int)
  {
    0 <= p < |s.posts| && s.posts[p].Sending? && !s.posts[p].policy.Reject?
    && |s.workQueue| >= CHANNEL_CAPACITY && !s.ctxDone
  }

  lemma Next<T(!new)>(s: State<T>, e: Event<T>) returns (t: State<T>)
    requires Reachable(s) && Enabled(s, e)
    ensures t == Apply(s, e) && Reachable(t)
  {
    StepReaches(s, e);
    t := Apply(s, e);
  }

  /** A new call of task t reaches the select of the Drop policy. */
  lemma CallReachesSelect<T(!new)>(s0: State<T>, t: T) returns (s: State<T>)
    requires Reachable(s0) && !s0.closed && s0.queuePolicy == Drop
    ensures Reachable(s) && s == s0.(posts := s0.posts + [Sending(t, Drop)], called := s0.called + [t])
  {
    hide Reachable;
    var p := |s0.posts|;
    var s1 := Next(s0, Call(t));
    assert s1.posts[p] == Entering(t);
    var s2 := Next(s1, LoadClosed(p));
    assert s2.posts[p] == Reading(t);
    s := Next(s2, ReadPolicy(p));
    assert s.posts == s0.posts + [Sending(t, Drop)];
  }

  /** While the goroutine is busy or slow, n posts fill n slots. */
  lemma {:induction false} ChannelFills<T(!new)>(t: T, n: nat) returns (s: State<T>)
    requires n <= CHANNEL_CAPACITY
    ensures Reachable(s) && |s.workQueue| == n && !s.closed && !s.ctxDone && s.queuePolicy == Drop
  {
    if n == 0 {
      s := Init<T>();
      ReachesItself(Runner<T>(), s);
    } else {
      hide Reachable;
      var s0 := ChannelFills(t, n - 1);
      var s1 := CallReachesSelect(s0, t);
      s := Next(s1, Send(|s0.posts|));
    }
  }

  /** The default policy blocks: a state in which a call of Drop faces a full channel. */
  lemma DropCanBlock<T(!new)>(t: T)
    ensures exists s: State<T>, p :: Reachable(s) && Blocked(s, p) && s.posts[p] == Sending(t, Drop)
  {
    hide Reachable;
    var s0 := ChannelFills(t, CHANNEL_CAPACITY);
    var s1 := CallReachesSelect(s0, t);
    assert Blocked(s1, |s0.posts|);
  }

  predicate Internal<T>(e: Event<T>) { !e.Call? && !e.SetPolicy? && !e.MarkClosed? && !e.Cancel? }

  /** Blocked senders always get in: when only clients can move and the runner has
      not been stopped, every call has been answered and everything sent has run. */
  lemma QuietRunnerIsDone<T(!new)>(s: State<T>)
    requires Reachable(s) && !s.ctxDone && forall e :: Internal(e) ==> !Enabled(s, e)
    ensures s.executed == s.sent && s.workQueue == []
    ensures forall p :: 0 <= p < |s.posts| ==> s.posts[p].Accepted? || s.posts[p].Ignored? || s.posts[p].Rejected?
    ensures !s.closed ==> |s.executed| + s.rejectedCount == |s.posts|
  {
    ReachableInv(s);
    assert !Enabled(s, EndTask) && !Enabled(s, Receive);
    forall p | 0 <= p < |s.posts| ensures s.posts[p].Accepted? || s.posts[p].Ignored? || s.posts[p].Rejected? {
      assert !Enabled(s, LoadClosed(p)) && !Enabled(s, ReadPolicy(p)) && !Enabled(s, Send(p));
    }
    assert Abs(s).Log() == s.executed;
    if !s.closed {
      EitherWay(s.posts);
    }
  }

  lemma {:induction false} EitherWay<T>(ps: seq<PostPc<T>>)
    requires forall p :: 0 <= p < |ps| ==> ps[p].Accepted? || ps[p].Rejected?
    ensures Sum(ps, IsAccepted) + Sum(ps, IsRejected) == |ps|
  {
    if ps != [] {
      EitherWay(ps[1..]);
    }
  }

  // ----- the runner itself -----

  lemma StepReaches<T(!new)>(s: State<T>, e: Event<T>)
    requires Reachable(s) && Enabled(s, e)
    ensures Reachable(Apply(s, e))
  {
    hide Enabled, Apply, Init;
    ReachesNext(Runner<T>(), Init<T>(), s, e);
  }

  class SingleThreadTaskRunner<T(==,!new)> {
    var workQueue: seq<T>
    var queuePolicy: QueuePolicy
    var rejectedCount: nat
    var executingCount: int
    var closed: bool
    var ctxDone: bool
    var stopped: bool
    var posts: seq<PostPc<T>>       // the calls of enqueueTask, with their local state
    var executing: Option<T>        // the task that runLoop has received
    ghost var sent: seq<T>
    ghost var executed: seq<T>
    ghost var called: seq<T>
    ghost var order: seq<nat>

    ghost function Snapshot(): State<T>
      reads this
    {
      State(workQueue, queuePolicy, closed, ctxDone, stopped, rejectedCount, executing, posts, sent, executed,
            called, order)
    }

    /** The fields are those of a reachable state, so everything above holds of them. */
    ghost predicate Valid()
      reads this
    {
      Reachable(Snapshot()) && executingCount == |AsSeq(executing)|
    }

    constructor ()
      ensures Valid() && Snapshot() == Init()
    {
      workQueue, queuePolicy, rejectedCount, executingCount := [], Drop, 0, 0;
      closed, ctxDone, stopped := false, false, false;
      posts, executing, sent, executed, called, order := [], None, [], [], [], [];
      new;
      ReachesItself(Runner<T>(), Init<T>());
    }

    method EnqueueTask(task: T) returns (p: nat)
      requires Valid()
      modifies this
      ensures Valid() && p == |old(posts)| && Snapshot() == Apply(old(Snapshot()), Call(task))
    {
      hide Reachable;
      StepReaches(Snapshot(), Call(task));
      p := |posts|;
      posts, called := posts + [Entering(task)], called + [task];
    }

    method LoadClosed(p: nat)
      requires Valid() && p < |posts| && posts[p].Entering?
      modifies this
      ensures Valid() && Snapshot() == Apply(old(Snapshot()), Event.LoadClosed(p))
    {
      hide Reachable;
      StepReaches(Snapshot(), Event.LoadClosed(p));
      if closed {
        posts := posts[p := Ignored];
      } else {
        posts := posts[p := Reading(posts[p].task)];
      }
    }

    method ReadPolicy(p: nat)
      requires Valid() && p < |posts| && posts[p].Reading?
      modifies this
      ensures Valid() && Snapshot() == Apply(old(Snapshot()), Event.ReadPolicy(p))
    {
      hide Reachable;
      StepReaches(Snapshot(), Event.ReadPolicy(p));
      posts := posts[p := Sending(posts[p].task, queuePolicy)];
    }

    /** The select of enqueueTask, once one of its arms is ready. */
    method Select(p: nat)
      requires Valid() && p < |posts| && posts[p].Sending?
      requires ctxDone || |workQueue| < CHANNEL_CAPACITY || posts[p].policy.Reject?
      modifies this
      ensures Valid()
      ensures || (old(ctxDone) && Snapshot() == Apply(old(Snapshot()), SeeDone(p)))
              || (|old(workQueue)| < CHANNEL_CAPACITY && Snapshot() == Apply(old(Snapshot()), Send(p)))
              || (old(Enabled(Snapshot(), Default(p))) && Snapshot() == Apply(old(Snapshot()), Default(p)))
    {
      hide Reachable;
      if {
        case ctxDone =>
          StepReaches(Snapshot(), SeeDone(p));
          posts := posts[p := Ignored];
          assert Snapshot() == old(Snapshot()).(posts := posts);
        case |workQueue| < CHANNEL_CAPACITY =>
          StepReaches(Snapshot(), Send(p));
          workQueue, sent, order := workQueue + [posts[p].task], sent + [posts[p].task], order + [p];
          posts := posts[p := Accepted];
          assert Snapshot() == old(Snapshot()).(posts := posts, workQueue := workQueue, sent := sent, order := order);
        case posts[p].policy.Reject? && !ctxDone && |workQueue| >= CHANNEL_CAPACITY =>
          StepReaches(Snapshot(), Default(p));
          rejectedCount := rejectedCount + 1;
          posts := posts[p := Rejected];
          assert Snapshot() == old(Snapshot()).(posts := posts, rejectedCount := rejectedCount);
      }
    }

    /** One turn of runLoop's select. */
    method RunLoopSelect()
      requires Valid() && !stopped && executing.None? && (workQueue != [] || ctxDone)
      modifies this
      ensures Valid()
      ensures || (old(workQueue) != [] && Snapshot() == Apply(old(Snapshot()), Receive))
              || (old(ctxDone) && Snapshot() == Apply(old(Snapshot()), Exit))
    {
      hide Reachable;
      if {
        case workQueue != [] =>
          StepReaches(Snapshot(), Receive);
          executing, workQueue := Some(workQueue[0]), workQueue[1..];
          executingCount := executingCount + 1;
        case ctxDone =>
          StepReaches(Snapshot(), Exit);
          stopped := true;
      }
    }

    /** The task returns, or panics: the deferred decrement runs either way. */
    method TaskEnds()
      requires Valid() && executing.Some?
      modifies this
      ensures Valid() && Snapshot() == Apply(old(Snapshot()), EndTask) && executingCount == 0
    {
      hide Reachable;
      StepReaches(Snapshot(), EndTask);
      executingCount := executingCount - 1;
      executed, executing := executed + [executing.value], None;
    }

    method SetQueuePolicy(policy: QueuePolicy)
      requires Valid()
      modifies this
      ensures Valid() && Snapshot() == Apply(old(Snapshot()), SetPolicy(policy))
    {
      hide Reachable;
      StepReaches(Snapshot(), SetPolicy(policy));
      queuePolicy := policy;
    }

    method Shutdown()
      requires Valid()
      modifies this
      ensures Valid() && Snapshot() == Apply(old(Snapshot()), MarkClosed)
    {
      hide Reachable;
      StepReaches(Snapshot(), MarkClosed);
      closed := true;
    }

    /** The second half of Stop, after it has marked the runner closed. */
    method CancelContext()
      requires Valid() && closed
      modifies this
      ensures Valid() && Snapshot() == Apply(old(Snapshot()), Cancel)
    {
      hide Reachable;
      StepReaches(Snapshot(), Cancel);
      ctxDone := true;
    }
  }
}
