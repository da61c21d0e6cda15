/** What a caller of the pool may rely on (core/task_scheduler.go): which calls of
    PostInternal bring their task to the queue, that a pool at rest has finished all
    of them, and what shutting it down does to the rest. */
module SchedulerCalls {
  import opened Counting
  import opened Runs
  import opened TaskScheduler

  /** The call has pushed its task. */
  predicate PastPush<T>(p: PostPc<T>) { p.Pushed? || p.Counted? || p.Returned? }

  /** The tasks of the calls that have pushed. */
  function Sent<T>(posts: seq<PostPc<T>>, called: seq<T>): multiset<T>
    requires |posts| == |called|
  {
    if posts == [] then multiset{} else SentBy(posts[0], called[0]) + Sent(posts[1..], called[1..])
  }

  function SentBy<T>(p: PostPc<T>, task: T): multiset<T>
  {
    if PastPush(p) then multiset{task} else multiset{}
  }

  lemma {:induction false} SentByOneMore<T>(posts: seq<PostPc<T>>, called: seq<T>, pc: PostPc<T>, task: T)
    requires |posts| == |called| && !PastPush(pc)
    ensures Sent(posts + [pc], called + [task]) == Sent(posts, called)
  {
    if posts == [] {
      assert ([pc] + [])[1..] == [] && ([task] + [])[1..] == [];
      assert posts + [pc] == [pc] && called + [task] == [task];
    } else {
      assert (posts + [pc])[1..] == posts[1..] + [pc] && (called + [task])[1..] == called[1..] + [task];
      SentByOneMore(posts[1..], called[1..], pc, task);
    }
  }

  lemma {:induction false} SentByMove<T>(posts: seq<PostPc<T>>, called: seq<T>, p: nat, pc: PostPc<T>)
    requires |posts| == |called| && p < |posts|
    ensures Sent(posts[p := pc], called) + SentBy(posts[p], called[p]) == Sent(posts, called) + SentBy(pc, called[p])
  {
    hide SentBy;
    var moved := posts[p := pc];
    if p == 0 {
      assert moved[1..] == posts[1..];
    } else {
      assert moved[1..] == posts[1..][p - 1 := pc];
      SentByMove(posts[1..], called[1..], p - 1, pc);
      Regroup(SentBy(posts[0], called[0]), Sent(posts[1..], called[1..]), Sent(moved[1..], called[1..]),
              SentBy(posts[p], called[p]), SentBy(pc, called[p]));
    }
  }

  lemma {:induction false} SentByAll<T>(posts: seq<PostPc<T>>, called: seq<T>)
    requires |posts| == |called| && forall p :: 0 <= p < |posts| ==> PastPush(posts[p])
    ensures Sent(posts, called) == multiset(called)
  {
    if posts != [] {
      SentByAll(posts[1..], called[1..]);
      assert called == [called[0]] + called[1..];
    }
  }

  ghost predicate Owned<T>(s: State<T>)
  {
    && |s.called| == |s.posts|
    && (forall p ::
          0 <= p < |s.posts| && (s.posts[p].Entering? || s.posts[p].Open?) ==> s.posts[p].task == s.called[p])
    && (!s.shuttingDown ==> forall p :: 0 <= p < |s.posts| ==> !s.posts[p].Rejected?)
  }

  /** A worker stops, and the queue is cleared, only when the pool has been told to. */
  ghost predicate ToldTo<T>(s: State<T>)
  {
    && (!s.cancelled ==> forall w :: 0 <= w < |s.workers| ==> !s.workers[w].Stopped?)
    && (s.cleared ==> s.shuttingDown)
    && (s.waiter != Away ==> s.shuttingDown)
    && (!s.cleared ==> s.discarded == multiset{})
  }

  ghost predicate Ledger<T>(s: State<T>) { Owned(s) && s.accepted == Sent(s.posts, s.called) && ToldTo(s) }

  lemma CallKeepsLedger<T>(s: State<T>, e: Event<T>)
    requires Ledger(s) && Enabled(s, e) && e.Call?
    ensures Ledger(PostNext(s, e))
  {
    hide Sent;
    SentByOneMore(s.posts, s.called, Entering(e.task), e.task);
  }

  /** One call moves on, pushing or not. */
  ghost predicate MovesOn<T>(s: State<T>, t: State<T>, p: nat)
  {
    && p < |s.posts| == |t.posts| && t.posts == s.posts[p := t.posts[p]]
    && t.called == s.called && t.shuttingDown == s.shuttingDown
    && t.accepted == s.accepted + (if s.posts[p].Open? && PastPush(t.posts[p]) then multiset{s.posts[p].task}
                                   else multiset{})
    && (PastPush(s.posts[p]) ==> PastPush(t.posts[p])) && (PastPush(t.posts[p]) ==> !s.posts[p].Entering?)
    && (t.posts[p].Open? ==> s.posts[p].Entering? && t.posts[p].task == s.posts[p].task)
    && !t.posts[p].Entering? && (t.posts[p].Rejected? ==> s.posts[p].Entering? && s.shuttingDown)
    && (PastPush(t.posts[p]) && !PastPush(s.posts[p]) ==> s.posts[p].Open?)
  }

  lemma PostMovesOn<T>(s: State<T>, e: Event<T>)
    requires Enabled(s, e) && PostEvent(e) && !e.Call?
    ensures MovesOn(s, PostNext(s, e), e.p)
  {
  }

  lemma PostLeavesRest<T>(s: State<T>, e: Event<T>)
    requires ToldTo(s) && Enabled(s, e) && PostEvent(e)
    ensures ToldTo(PostNext(s, e))
  {
  }

  lemma MovedKeepsOwned<T>(s: State<T>, t: State<T>, p: nat)
    requires Owned(s) && MovesOn(s, t, p)
    ensures Owned(t)
  {
  }

  lemma Exchanged<T>(m: multiset<T>, m': multiset<T>, a: multiset<T>, b: multiset<T>, task: T)
    requires m' + a == m + b && (a == b || (a == multiset{} && b == multiset{task}))
    ensures m' == m + (if a == b then multiset{} else multiset{task})
  {
    assert m' == (m' + a) - a == (m + b) - a;
  }

  lemma MovedKeepsSent<T>(s: State<T>, t: State<T>, p: nat)
    requires Owned(s) && MovesOn(s, t, p) && s.accepted == Sent(s.posts, s.called)
    ensures |t.called| == |t.posts| && t.accepted == Sent(t.posts, t.called)
  {
    hide Sent;
    SentByMove(s.posts, s.called, p, t.posts[p]);
    Exchanged(Sent(s.posts, s.called), Sent(t.posts, t.called), SentBy(s.posts[p], s.called[p]),
              SentBy(t.posts[p], s.called[p]), s.called[p]);
  }

  lemma PostKeepsLedger<T>(s: State<T>, e: Event<T>)
    requires Ledger(s) && Enabled(s, e) && PostEvent(e) && !e.Call?
    ensures Ledger(PostNext(s, e))
  {
    PostMovesOn(s, e);
    PostLeavesRest(s, e);
    hide Sent, Owned, MovesOn, ToldTo, PostNext;
    MovedKeepsOwned(s, PostNext(s, e), e.p);
    MovedKeepsSent(s, PostNext(s, e), e.p);
  }

  predicate SameCalls<T(==)>(s: State<T>, t: State<T>)
  {
    t.posts == s.posts && t.called == s.called && t.accepted == s.accepted && (s.shuttingDown ==> t.shuttingDown)
  }

  lemma WorkerLeavesCalls<T>(s: State<T>, e: Event<T>)
    requires Enabled(s, e) && WorkerEvent(e)
    ensures SameCalls(s, WorkerNext(s, e))
  {
  }

  lemma WorkerFrame<T>(s: State<T>, e: Event<T>)
    requires Enabled(s, e) && WorkerEvent(e)
    ensures SameCalls(s, WorkerNext(s, e)) && (ToldTo(s) ==> ToldTo(WorkerNext(s, e)))
  {
    WorkerLeavesCalls(s, e);
    hide SameCalls;
  }

  lemma ShutdownFrame<T>(s: State<T>, e: Event<T>)
    requires Enabled(s, e) && !PostEvent(e) && !WorkerEvent(e)
    ensures SameCalls(s, ShutdownNext(s, e)) && (ToldTo(s) ==> ToldTo(ShutdownNext(s, e)))
  {
  }

  lemma StepKeepsLedger<T>(s: State<T>, e: Event<T>)
    requires Ledger(s) && Enabled(s, e)
    ensures Ledger(Apply(s, e))
  {
    hide Sent, ToldTo, PostNext, WorkerNext, ShutdownNext;
    if e.Call? { CallKeepsLedger(s, e); }
    else if PostEvent(e) { PostKeepsLedger(s, e); }
    else if WorkerEvent(e) { WorkerFrame(s, e); }
    else { ShutdownFrame(s, e); }
  }

  lemma InitLedger<T>(workers: nat, s: State<T>)
    requires s == Init<T>(workers)
    ensures Ledger(s)
  {
  }

  lemma ReachableLedger<T(!new)>(workers: nat, s: State<T>)
    requires Reachable(workers, s)
    ensures Ledger(s)
  {
    InitLedger(workers, Init<T>(workers));
    hide Ledger, Enabled, Apply, Init;
    forall s: State<T>, e: Event<T> | Ledger(s) && Enabled(s, e) ensures Ledger(Apply(s, e)) {
      StepKeepsLedger(s, e);
    }
    InvariantReached(Pool<T>(), s => Ledger(s), Init<T>(workers), s);
  }

  /** t is the state after event e at s. */
  ghost predicate Took<T>(s: State<T>, e: Event<T>, t: State<T>) { Enabled(s, e) && t == Apply(s, e) }

  /** Calls are recorded as they are made, and only then. */
  lemma CalledIsTheCalls<T>(s: State<T>, e: Event<T>, t: State<T>)
    requires Took(s, e, t)
    ensures t.called == if e.Call? then s.called + [e.task] else s.called
  {
    if WorkerEvent(e) { WorkerFrame(s, e); }
    else if !PostEvent(e) { ShutdownFrame(s, e); }
  }

  /** What is accepted is the tasks of the calls that have pushed, and a pool that is
      not shutting down turns no call away. */
  lemma OpenPoolTakesEveryCall<T(!new)>(workers: nat, s: State<T>)
    requires Reachable(workers, s)
    ensures |s.posts| == |s.called| && s.accepted == Sent(s.posts, s.called)
    ensures !s.shuttingDown ==> forall p :: 0 <= p < |s.posts| ==> !s.posts[p].Rejected?
  {
    ReachableLedger(workers, s);
  }

  /** Only a cancelled pool loses a worker, only a cleared one a task. */
  lemma PoolStopsOnlyWhenTold<T(!new)>(workers: nat, s: State<T>)
    requires Reachable(workers, s)
    ensures !s.cancelled ==> forall w :: 0 <= w < |s.workers| ==> !s.workers[w].Stopped?
    ensures !s.cleared ==> s.discarded == multiset{}
    ensures s.cleared || s.waiter != Away ==> s.shuttingDown
    ensures Quiescent(s) && s.cancelled ==> forall w :: 0 <= w < |s.workers| ==> s.workers[w].Stopped?
  {
    ReachableLedger(workers, s);
    if Quiescent(s) && s.cancelled {
      forall w | 0 <= w < |s.workers| ensures s.workers[w].Stopped? {
        IdleWorker(s, w);
        assert !Enabled(s, Stop(w));
      }
    }
  }

  lemma IdleWorker<T(!new)>(s: State<T>, w: nat)
    requires Quiescent(s) && w < |s.workers|
    ensures s.workers[w].Waiting? || s.workers[w].Stopped?
  {
    assert !Enabled(s, Pop(w, 0)) && !Enabled(s, CountDown(w)) && !Enabled(s, Start(w)) && !Enabled(s, End(w));
  }

  lemma {:induction false} NobodyHolds<T>(ws: seq<WorkerPc<T>>)
    requires forall w :: 0 <= w < |ws| ==> InHand(ws[w]) == multiset{}
    ensures InHands(ws) == multiset{}
  {
    if ws != [] {
      NobodyHolds(ws[1..]);
    }
  }

  lemma QuietPost<T(!new)>(s: State<T>, p: nat)
    requires Quiescent(s) && p < |s.posts|
    ensures s.posts[p].Returned? || s.posts[p].Rejected?
  {
    assert !Enabled(s, Check(p)) && !Enabled(s, Push(p)) && !Enabled(s, CountUp(p)) && !Enabled(s, Signal(p));
  }

  /** A pool at rest that nobody is shutting down has finished the task of every call,
      once: it neither loses one nor makes one up. */
  lemma OpenPoolFinishesEveryCall<T(!new)>(workers: nat, s: State<T>)
    requires Reachable(workers, s) && Quiescent(s) && !s.shuttingDown && !s.cancelled && |s.workers| > 0
    ensures forall p :: 0 <= p < |s.posts| ==> s.posts[p].Returned?
    ensures s.queue == [] && s.finished == s.accepted == multiset(s.called)
  {
    hide Reachable, Sent, InHands, Quiescent, Inv;
    ReachableLedger(workers, s);
    ReachableInv(workers, s);
    assert !s.workers[0].Stopped?;
    QuiescentQueueIsEmpty(s);
    NothingLostOrDoubled(workers, s);
    forall w | 0 <= w < |s.workers| ensures InHand(s.workers[w]) == multiset{} {
      IdleWorker(s, w);
    }
    NobodyHolds(s.workers);
    forall p | 0 <= p < |s.posts| ensures s.posts[p].Returned? {
      QuietPost(s, p);
    }
    SentByAll(s.posts, s.called);
  }

  // ----- shutting down -----

  /** Only the calls in late may still push. */
  ghost predicate Shut<T>(s: State<T>, late: set<nat>)
  {
    s.shuttingDown && forall p :: 0 <= p < |s.posts| && (s.posts[p].Open? || PastPush(s.posts[p])) ==> p in late
  }

  lemma StaysShut<T>(s: State<T>, e: Event<T>, late: set<nat>)
    requires Shut(s, late) && Enabled(s, e)
    ensures Shut(Apply(s, e), late)
  {
    if WorkerEvent(e) { WorkerFrame(s, e); }
    else if !PostEvent(e) { ShutdownFrame(s, e); }
  }

  /** After Shutdown's or ShutdownGraceful's store every call that had not yet seen the
      pool open is turned away: none of them pushes. */
  lemma ShutPoolTurnsAway<T(!new)>(s: State<T>, e: Event<T>, t: State<T>, u: State<T>, p: nat)
    requires Took(s, e, t) && (e.BeginShutdown? || e.BeginGraceful?) && Pool<T>().Reaches(t, u)
    requires p < |u.posts| && PastPush(u.posts[p])
    ensures p < |s.posts| && (s.posts[p].Open? || PastPush(s.posts[p]))
  {
    var late := set q: nat | q < |s.posts| && (s.posts[q].Open? || PastPush(s.posts[q]));
    assert Shut(t, late);
    hide Enabled, Apply;
    forall u: State<T>, e: Event<T> | Shut(u, late) && Enabled(u, e) ensures Shut(Apply(u, e), late) {
      StaysShut(u, e, late);
    }
    InvariantReached(Pool<T>(), u => Shut(u, late), t, u);
  }

  ghost predicate ContextDone<T>(s: State<T>) { s.cancelled }

  lemma StaysDone<T>(s: State<T>, e: Event<T>)
    requires ContextDone(s) && Enabled(s, e)
    ensures ContextDone(Apply(s, e))
  {
  }

  /** Whatever follows the end of the workers' context: where the pool comes to rest
      every worker has stopped. */
  lemma CancelledPoolStops<T(!new)>(workers: nat, s: State<T>, t: State<T>, u: State<T>)
    requires Reachable(workers, s) && Took(s, Cancel, t) && Pool<T>().Reaches(t, u)
    ensures u.cancelled && (Quiescent(u) ==> forall w :: 0 <= w < |u.workers| ==> u.workers[w].Stopped?)
  {
    assert ContextDone(t);
    var v := Step(workers, s, Cancel);
    hide Enabled, Apply, Init, Quiescent;
    forall u: State<T>, e: Event<T> | ContextDone(u) && Enabled(u, e) ensures ContextDone(Apply(u, e)) {
      StaysDone(u, e);
    }
    InvariantReached(Pool<T>(), u => ContextDone(u), t, u);
    ReachesFurther(Pool<T>(), Init<T>(workers), t, u);
    PoolStopsOnlyWhenTold(workers, u);
  }

  /** What has been accepted, discarded and delivered so far only grows. */
  ghost predicate Grown<T>(s: State<T>, t: State<T>)
  {
    s.accepted <= t.accepted && s.discarded <= t.discarded && s.delivered <= t.delivered
  }

  lemma StaysGrown<T>(s: State<T>, t: State<T>, e: Event<T>)
    requires Grown(s, t) && Enabled(t, e)
    ensures Grown(s, Apply(t, e))
  {
  }

  lemma ReachedGrown<T(!new)>(s: State<T>, t: State<T>)
    requires Pool<T>().Reaches(s, t)
    ensures Grown(s, t)
  {
    assert Grown(s, s);
    hide Grown, Enabled, Apply;
    forall u: State<T>, e: Event<T> | Grown(s, u) && Enabled(u, e) ensures Grown(s, Apply(u, e)) {
      StaysGrown(s, u, e);
    }
    InvariantReached(Pool<T>(), u => Grown(s, u), s, t);
  }

  /** Shutdown throws away the whole queue: what is delivered or queued afterwards was
      delivered before, or is pushed later. */
  lemma ClearedTasksNeverRun<T(!new)>(workers: nat, s: State<T>, t: State<T>, u: State<T>)
    requires Reachable(workers, s) && Took(s, ClearQueue, t) && Pool<T>().Reaches(t, u)
    ensures t.queue == [] && multiset(s.queue) <= u.discarded
    ensures u.delivered + multiset(u.queue) <= s.delivered + (u.accepted - s.accepted)
  {
    assert t.accepted == s.accepted && t.delivered == s.delivered;
    assert t.discarded == s.discarded + multiset(s.queue) && t.queue == [];
    var v := Step(workers, s, ClearQueue);
    hide Apply, Init;
    ReachesFurther(Pool<T>(), Init<T>(workers), t, u);
    ReachableInv(workers, t);
    ReachableInv(workers, u);
    ReachedGrown(t, u);
    hide Awake, HandsAgree, MetricsAgree;
    Remains(u.accepted, multiset(u.queue), u.delivered, u.discarded, t.accepted, t.delivered, t.discarded);
  }

  lemma Remains<T>(a': multiset<T>, q': multiset<T>, d': multiset<T>, x': multiset<T>,
                   a: multiset<T>, d: multiset<T>, x: multiset<T>)
    requires a' == q' + d' + x' && a == d + x && a <= a' && x <= x'
    ensures d' + q' <= d + (a' - a)
  {
  }

  lemma NilComesFrom<T>(s: State<T>, e: Event<T>, t: State<T>)
    requires Took(s, e, t) && s.waiter != ReturnedNil && t.waiter == ReturnedNil
    ensures s.metricActive == 0 && t.workers == s.workers
  {
  }

  /** ShutdownGraceful comes back with nil only at a moment when no body runs, */
  lemma NilMeansNobodyRuns<T(!new)>(workers: nat, s: State<T>, e: Event<T>, t: State<T>)
    requires Reachable(workers, s) && Took(s, e, t) && s.waiter != ReturnedNil && t.waiter == ReturnedNil
    ensures forall w :: 0 <= w < |t.workers| ==> !t.workers[w].Running?
  {
    NilComesFrom(s, e, t);
    hide Took, Reachable;
    ReachableInv(workers, s);
    hide Awake, HandsAgree, Conserved;
    forall w: nat | w < |s.workers| ensures !s.workers[w].Running? {
      SumAt(s.workers, w, Busy);
    }
  }

  lemma NothingCounted<T(!new)>(workers: nat, s: State<T>)
    requires Reachable(workers, s) && !s.cleared && NoTaskLeft(s)
    requires forall p :: 0 <= p < |s.posts| ==> !s.posts[p].Pushed?
    ensures s.metricQueued == 0 && s.metricActive == 0
  {
    hide Reachable;
    ReachableInv(workers, s);
    hide Awake, HandsAgree, Conserved;
    SumZero(s.workers, Uncounted);
    SumZero(s.workers, Busy);
    SumZero(s.posts, Unrecorded);
  }

  /** and once all work is done it can come back with nil. */
  lemma DonePoolLetsItReturn<T(!new)>(workers: nat, s: State<T>)
    requires Reachable(workers, s) && s.waiter == Polling && !s.cleared && NoTaskLeft(s)
    requires forall p :: 0 <= p < |s.posts| ==> !s.posts[p].Pushed?
    ensures exists t :: Pool<T>().Reaches(s, t) && t.waiter == ReturnedNil
  {
    NothingCounted(workers, s);
    var t := Apply(s, LoadQueued);
    assert t == s.(waiter := SawNoneQueued);
    var u := Apply(t, LoadActive);
    assert u == t.(waiter := ReturnedNil);
    ReachesItself(Pool<T>(), s);
    hide Apply, Enabled, Reachable, NoTaskLeft, Machine.Reaches;
    ReachesNext(Pool<T>(), s, s, LoadQueued);
    ReachesNext(Pool<T>(), s, t, LoadActive);
    assert Pool<T>().Reaches(s, u);
  }
}
