/** What a caller of ShutdownGraceful can know at the call: exactly when every run on
    which it returns nil returns it with all work done. */
module GracefulShutdown {
  import opened Counting
  import opened Runs
  import opened TaskScheduler

  predicate Unstarted<T>(w: WorkerPc<T>) { w.Popped? || w.Held? }

  /** Every task there is, or that a call past its check will bring, is running or over. */
  predicate NothingWaits<T(==)>(s: State<T>)
  {
    && s.queue == []
    && (forall p :: 0 <= p < |s.posts| ==> !s.posts[p].Open?)
    && (forall w :: 0 <= w < |s.workers| ==> !Unstarted(s.workers[w]))
  }

  predicate SomebodyLives<T>(s: State<T>) { exists w :: 0 <= w < |s.workers| && !s.workers[w].Stopped? }

  /** ShutdownGraceful is about to return nil, and nobody has cleared the queue. */
  predicate AboutToReturnNil<T>(s: State<T>) { !s.cleared && s.waiter == SawNoneQueued && s.metricActive == 0 }

  function Begun<T(==)>(s: State<T>): State<T>
    requires s.waiter == Away
  {
    Apply(s, BeginGraceful)
  }

  // ----- nothing waits: every nil is right -----

  ghost predicate Dry<T(!new)>(s: State<T>) { Inv(s) && s.shuttingDown && NothingWaits(s) }

  lemma DryStays<T(!new)>(s: State<T>, e: Event<T>)
    requires Dry(s) && Enabled(s, e)
    ensures Dry(Apply(s, e))
  {
    StepKeepsInv(s, e);
    hide Inv, PostNext, WorkerNext, ShutdownNext, NothingWaits;
    if PostEvent(e) { DryPost(s, e); }
    else if WorkerEvent(e) { DryWorker(s, e); }
    else { DryShutdown(s, e); }
  }

  lemma DryPost<T(!new)>(s: State<T>, e: Event<T>)
    requires s.shuttingDown && NothingWaits(s) && PostEvent(e) && Enabled(s, e)
    ensures PostNext(s, e).shuttingDown && NothingWaits(PostNext(s, e))
  {
  }

  lemma DryWorker<T(!new)>(s: State<T>, e: Event<T>)
    requires s.shuttingDown && NothingWaits(s) && WorkerEvent(e) && Enabled(s, e)
    ensures WorkerNext(s, e).shuttingDown && NothingWaits(WorkerNext(s, e))
  {
  }

  lemma DryShutdown<T(!new)>(s: State<T>, e: Event<T>)
    requires s.shuttingDown && NothingWaits(s) && !PostEvent(e) && !WorkerEvent(e) && Enabled(s, e)
    ensures ShutdownNext(s, e).shuttingDown && NothingWaits(ShutdownNext(s, e))
  {
  }

  lemma DryIsDone<T(!new)>(s: State<T>, t: State<T>)
    requires Dry(s) && Pool<T>().Reaches(s, t) && AboutToReturnNil(t)
    ensures NoTaskLeft(t)
  {
    DryReached(s, t);
    hide Awake, Conserved, HandsAgree;
    forall w: nat | w < |t.workers| ensures !t.workers[w].Running? {
      SumAt(t.workers, w, Busy);
    }
  }

  lemma DryReached<T(!new)>(s: State<T>, t: State<T>)
    requires Dry(s) && Pool<T>().Reaches(s, t)
    ensures Dry(t)
  {
    hide Dry, Enabled, Apply;
    forall s: State<T>, e: Event<T> | Dry(s) && Enabled(s, e) ensures Dry(Apply(s, e)) {
      DryStays(s, e);
    }
    InvariantReached(Pool<T>(), s => Dry(s), s, t);
  }

  // ----- something waits: some nil comes too early -----

  /** The poll goes on, and a task waits. */
  ghost predicate Doomed<T(!new)>(s: State<T>)
  {
    Inv(s) && !s.cleared && s.waiter == Polling && SomebodyLives(s) && !NothingWaits(s)
  }

  /** All that waits is in the hands of workers before OnTaskStart. */
  predicate OnlyHeld<T(==)>(s: State<T>)
  {
    && s.queue == [] && (exists w :: 0 <= w < |s.workers| && s.workers[w].Held?)
    && (forall p :: 0 <= p < |s.posts| ==> s.posts[p].Returned? || s.posts[p].Rejected?)
    && (forall w :: 0 <= w < |s.workers| ==> s.workers[w].Held? || s.workers[w].Waiting? || s.workers[w].Stopped?)
  }

  /** Any step of a call under way keeps a task waiting. */
  lemma PostKeepsWaiting<T(!new)>(s: State<T>, e: Event<T>)
    requires !NothingWaits(s) && PostEvent(e) && !e.Call? && Enabled(s, e)
    requires e.Check? || e.Push? || e.CountUp? || e.Signal?
    ensures !NothingWaits(PostNext(s, e))
  {
    var t := PostNext(s, e);
    if e.Push? {
      assert t.queue != [];
    } else if s.queue == [] {
      if w: nat :| w < |s.workers| && Unstarted(s.workers[w]) {
        assert Unstarted(t.workers[w]);
      } else {
        var p: nat :| p < |s.posts| && s.posts[p].Open?;
        assert t.posts[p].Open?;
      }
    }
  }

  /** So does any step of a worker but the start of the last waiting task. */
  lemma WorkerKeepsWaiting<T(!new)>(s: State<T>, e: Event<T>)
    requires !NothingWaits(s) && (e.Pop? || e.CountDown? || e.Start? || e.End? || e.Wake?) && Enabled(s, e)
    requires e.Start? ==> s.queue != []
    ensures !NothingWaits(WorkerNext(s, e)) && SomebodyLives(WorkerNext(s, e))
  {
    var t := WorkerNext(s, e);
    assert !t.workers[e.w].Stopped? || (e.Pop? && s.queue == []);
    assert !t.workers[e.w].Stopped?;
    if (e.Pop? && s.queue != []) || e.CountDown? {
      assert Unstarted(t.workers[e.w]);
    } else if s.queue == [] {
      if w: nat :| w < |s.workers| && Unstarted(s.workers[w]) {
        assert Unstarted(t.workers[w]);
      } else {
        var p: nat :| p < |s.posts| && s.posts[p].Open?;
        assert t.posts[p].Open?;
      }
    }
  }

  predicate Moves<T>(s: State<T>, e: Event<T>)
  {
    && Enabled(s, e) && Internal(e) && !e.Stop? && (e.Start? ==> s.queue != [])
  }

  /** Until only held tasks are left there is such a step to take. */
  lemma CanMove<T(!new)>(s: State<T>) returns (e: Event<T>)
    requires Doomed(s) && !OnlyHeld(s)
    ensures Moves(s, e)
  {
    hide Conserved, HandsAgree, MetricsAgree;
    if p: nat :| p < |s.posts| && !s.posts[p].Returned? && !s.posts[p].Rejected? {
      e := match s.posts[p]
           case Entering(_) => Check(p)
           case Open(_) => Push(p)
           case Pushed => CountUp(p)
           case _ => Signal(p);
    } else if w: nat :| w < |s.workers| && (s.workers[w].Popping? || s.workers[w].Popped? || s.workers[w].Running?) {
      e := if s.workers[w].Popping? then Pop(w, 0) else if s.workers[w].Popped? then CountDown(w) else End(w);
    } else if s.queue != [] {
      if w: nat :| w < |s.workers| && s.workers[w].Held? {
        e := Start(w);
      } else {
        e := SomebodyWakes(s);
      }
    } else {
      e := Cancel;
      assert false;
    }
  }

  /** A queued task beside sleepers alone comes with a token. */
  lemma SomebodyWakes<T(!new)>(s: State<T>) returns (e: Event<T>)
    requires Awake(s) && SomebodyLives(s) && s.queue != []
    requires forall p :: 0 <= p < |s.posts| ==> s.posts[p].Returned? || s.posts[p].Rejected?
    requires forall w :: 0 <= w < |s.workers| ==> s.workers[w].Waiting? || s.workers[w].Stopped?
    ensures Moves(s, e)
  {
    SumZero(s.posts, Owes);
    SumZero(s.workers, Hunts);
    var w: nat :| w < |s.workers| && !s.workers[w].Stopped?;
    SumAt(s.workers, w, Sleeps);
    e := Wake(w);
  }

  lemma StaysDoomed<T(!new)>(s: State<T>, e: Event<T>)
    requires Doomed(s) && Moves(s, e)
    ensures Doomed(Apply(s, e)) && Work(Apply(s, e)) < Work(s)
  {
    StepKeepsInv(s, e);
    InternalStepsSpendWork(s, e);
    hide Inv, Work, NothingWaits, SomebodyLives, PostNext, WorkerNext;
    MovesOn(s, e);
    if PostEvent(e) {
      PostKeepsWaiting(s, e);
    } else {
      WorkerKeepsWaiting(s, e);
    }
  }

  lemma MovesOn<T(!new)>(s: State<T>, e: Event<T>)
    requires Moves(s, e)
    ensures Apply(s, e).cleared == s.cleared && Apply(s, e).waiter == s.waiter
    ensures PostEvent(e) && SomebodyLives(s) ==> SomebodyLives(Apply(s, e))
  {
  }

  /** So the pool can be driven to where only held tasks are left. */
  lemma {:induction false} Drive<T(!new)>(s: State<T>) returns (t: State<T>)
    requires Doomed(s)
    ensures Pool<T>().Reaches(s, t) && Doomed(t) && OnlyHeld(t)
    decreases Work(s)
  {
    hide Doomed, OnlyHeld, Moves, Work, Apply;
    ReachesItself(Pool<T>(), s);
    if OnlyHeld(s) {
      t := s;
    } else {
      var e := CanMove(s);
      StaysDoomed(s, e);
      assert Enabled(s, e) by { MoveIsEnabled(s, e); }
      ReachesNext(Pool<T>(), s, s, e);
      t := Drive(Apply(s, e));
      ReachesFurther(Pool<T>(), s, Apply(s, e), t);
    }
  }

  lemma MoveIsEnabled<T(!new)>(s: State<T>, e: Event<T>)
    requires Moves(s, e)
    ensures Enabled(s, e)
  {
  }

  /** There both counters are 0, and the two loads see it. */
  lemma HeldIsUnseen<T(!new)>(s: State<T>)
    requires Doomed(s) && OnlyHeld(s)
    ensures s.metricQueued == 0 && s.metricActive == 0
  {
    hide Awake, Conserved, HandsAgree;
    SumZero(s.workers, Busy);
    SumZero(s.workers, Uncounted);
    SumZero(s.posts, Unrecorded);
  }

  lemma DoomedReturnsNil<T(!new)>(s: State<T>) returns (t: State<T>)
    requires Doomed(s)
    ensures Pool<T>().Reaches(s, t) && AboutToReturnNil(t) && !NoTaskLeft(t)
  {
    var u := Drive(s);
    HeldIsUnseen(u);
    hide Inv, Work;
    t := Apply(u, LoadQueued);
    assert t == u.(waiter := SawNoneQueued);
    ReachesNext(Pool<T>(), s, u, LoadQueued);
    var w: nat :| w < |u.workers| && u.workers[w].Held?;
    assert t.workers[w].Held?;
  }

  // ----- the condition -----

  /** ShutdownGraceful is called at s. Every nil that can come of it means that all work
      is done, if and only if at s the queue is empty, no call of PostInternal is between
      its check and its push, and no worker is between its pop and OnTaskStart: a running
      task is waited for, a task that waits may be missed. */
  lemma EveryNilIsRightIff<T(!new)>(workers: nat, s: State<T>)
    requires Reachable(workers, s) && s.waiter == Away && !s.cleared && SomebodyLives(s)
    ensures (forall t :: Pool<T>().Reaches(Begun(s), t) && AboutToReturnNil(t) ==> NoTaskLeft(t)) <==> NothingWaits(s)
  {
    hide Reachable, NothingWaits, NoTaskLeft, AboutToReturnNil;
    ReachableInv(workers, s);
    var b := Begun(s);
    StepKeepsInv(s, BeginGraceful);
    assert b == s.(shuttingDown := true, waiter := Polling);
    hide Inv, Apply;
    SameWaits(s, b);
    if NothingWaits(s) {
      forall t | Pool<T>().Reaches(b, t) && AboutToReturnNil(t) ensures NoTaskLeft(t) {
        DryIsDone(b, t);
      }
    } else {
      var t := DoomedReturnsNil(b);
    }
  }

  lemma SameWaits<T(!new)>(s: State<T>, t: State<T>)
    requires t.queue == s.queue && t.posts == s.posts && t.workers == s.workers
    ensures NothingWaits(t) == NothingWaits(s)
  {
  }
}
