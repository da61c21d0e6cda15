/** The ParallelTaskRunner's dispatch loop and barriers
    (core/parallel_task_runner.go), one event per atomic operation.

    Scheduling closures run one at a time, in order, on the internal
    single-thread runner (the "goroutine" below); workers of the pool decrement
    runningCount concurrently. A queued item is the number of its push. */
module ParallelRunner {
  import opened Counting
  import opened Runs
  import opened FifoRunner

  datatype Closure =
    | PostC                // body of PostTaskWithTraitsNamed
    | FlushC               // body of WaitIdle and FlushAsync
    | CompleteC(d: nat)    // posted by onTaskComplete of dispatch d
    | ResetC(d: nat)       // posted when the body of barrier d ends

  datatype Kind = Normal | Immediate | Pending

  /** Where the goroutine stands. */
  datatype Pc =
    | Idle
    | PostCheck | FlushCheck               // about to load closed
    | PushTask | PushBarrier               // about to push
    | MarkBarrier(id: nat)                 // about to record the pushed ID as a barrier
    | Gate                                 // head of tryScheduleInternal
    | PendingLoad                          // a barrier is pending, about to load runningCount
    | PendingAdd(id: nat)                  // postBarrierTaskInternal, about to add one
    | LoopLoad | LoopEmpty | LoopPop       // the dispatch loop
    | BarrierLoad(id: nat)                 // popped a barrier, about to load runningCount
    | ImmediateAdd(id: nat) | NormalAdd(id: nat)
    | Hand(id: nat, kind: Kind)            // counted, about to call PostInternal
    | ResetStore(d: nat)                   // about to store barrierTaskRunning = false

  /** Where a dispatched item stands on its worker. */
  datatype Stage = InPool | Body | ResetDue | AddDue | CompleteDue | Done

  datatype Dispatch = Dispatch(id: nat, kind: Kind, stage: Stage)

  datatype State = State(
    maxConcurrency: nat,
    work: seq<Closure>,            // the internal runner's channel
    pc: Pc,
    queue: seq<nat>,
    barrierTaskIDs: set<nat>,
    pendingBarrierTask: Option<nat>,
    barrierTaskRunning: bool,
    runningCount: int,
    closed: bool,
    cleared: bool,
    schedulerClosed: bool,
    dispatched: seq<Dispatch>,     // in dispatch order
    // history: number of pushes, which of them are barriers, which were cleared
    // by Shutdown, and the others in push order; for each client closure that
    // entered the channel whether it brings a barrier; and the dispatches in the
    // order in which their bodies ended
    pushes: nat,
    barriers: set<nat>,
    dropped: set<nat>,
    line: seq<nat>,
    sends: seq<bool>,
    ran: seq<nat>)

  const CHANNEL_CAPACITY: nat := 100

  datatype Event =
    | SendPost | SendFlush         // a client's closure enters the channel
    | Take | Go                    // the goroutine receives a closure, takes its next step
    | BodyStart(d: nat) | BodyEnd(d: nat)
    | SendReset(d: nat, sent: bool) | Decrement(d: nat) | SendComplete(d: nat, sent: bool)
    | CloseRunner | ClearQueue | CloseScheduler

  function Init(max: nat): State
  {
    State(max, [], Idle, [], {}, None, false, 0, false, false, false, [], 0, {}, {}, [], [], [])
  }

  predicate At(s: State, d: nat, stage: Stage) { d < |s.dispatched| && s.dispatched[d].stage == stage }

  /** A send blocks on a full channel; it is skipped only when the internal
      runner was seen closed. */
  predicate CanSend(s: State, sent: bool)
  {
    if sent then |s.work| < CHANNEL_CAPACITY else s.schedulerClosed
  }

  predicate Enabled(s: State, e: Event)
  {
    match e
    case SendPost => |s.work| < CHANNEL_CAPACITY
    case SendFlush => |s.work| < CHANNEL_CAPACITY
    case Take => s.pc == Idle && s.work != []
    case Go => s.pc != Idle
    case BodyStart(d) => At(s, d, InPool)
    case BodyEnd(d) => At(s, d, Body)
    case SendReset(d, sent) => At(s, d, ResetDue) && CanSend(s, sent)
    case Decrement(d) => At(s, d, AddDue)
    case SendComplete(d, sent) => At(s, d, CompleteDue) && CanSend(s, sent)
    case CloseRunner => !s.closed
    case ClearQueue => s.closed && !s.cleared
    case CloseScheduler => s.cleared && !s.schedulerClosed
  }

  function Move(s: State, d: nat, stage: Stage): State
    requires d < |s.dispatched|
  {
    s.(dispatched := s.dispatched[d := s.dispatched[d].(stage := stage)])
  }

  function Send(s: State, c: Closure, sent: bool): State
  {
    if sent then s.(work := s.work + [c]) else s
  }

  function AfterTake(c: Closure): Pc
  {
    match c
    case PostC => PostCheck
    case FlushC => FlushCheck
    case CompleteC(_) => Gate
    case ResetC(d) => ResetStore(d)
  }

  predicate AtEntry(pc: Pc)
  {
    pc.PostCheck? || pc.FlushCheck? || pc.PushTask? || pc.PushBarrier? || pc.MarkBarrier?
  }

  predicate AtGate(pc: Pc) { pc.Gate? || pc.PendingLoad? || pc.PendingAdd? || pc.ResetStore? }

  predicate AtLoop(pc: Pc)
  {
    pc.LoopLoad? || pc.LoopEmpty? || pc.LoopPop? || pc.BarrierLoad? || pc.ImmediateAdd? || pc.NormalAdd?
  }

  /** The closures of PostTaskWithTraitsNamed, WaitIdle and FlushAsync up to tryScheduleInternal. */
  function EntryStep(s: State): State
    requires AtEntry(s.pc)
  {
    match s.pc
    case PostCheck => s.(pc := if s.closed then Idle else PushTask)
    case FlushCheck => s.(pc := if s.closed then Idle else PushBarrier)
    case PushTask => s.(queue := s.queue + [s.pushes], line := s.line + [s.pushes], pushes := s.pushes + 1, pc := Gate)
    case PushBarrier =>
      s.(queue := s.queue + [s.pushes], line := s.line + [s.pushes], pushes := s.pushes + 1,
         barriers := s.barriers + {s.pushes}, pc := MarkBarrier(s.pushes))
    case MarkBarrier(id) => s.(barrierTaskIDs := s.barrierTaskIDs + {id}, pc := Gate)
  }

  /** tryScheduleInternal before its loop, postBarrierTaskInternal, and the reset closure. */
  function GateStep(s: State): State
    requires AtGate(s.pc)
  {
    match s.pc
    case Gate =>
      s.(pc := if s.barrierTaskRunning then Idle
               else if s.pendingBarrierTask.Some? then PendingLoad else LoopLoad)
    case PendingLoad =>
      if s.runningCount == 0 && s.pendingBarrierTask.Some? then
        s.(barrierTaskIDs := s.barrierTaskIDs - {s.pendingBarrierTask.value}, pendingBarrierTask := None,
           barrierTaskRunning := true, pc := PendingAdd(s.pendingBarrierTask.value))
      else s.(pc := Idle)
    case PendingAdd(id) => s.(runningCount := s.runningCount + 1, pc := Hand(id, Pending))
    case ResetStore(_) => s.(barrierTaskRunning := false, pc := Idle)
  }

  /** The dispatch loop up to the hand-over to the pool. */
  function LoopStep(s: State): State
    requires AtLoop(s.pc)
  {
    match s.pc
    case LoopLoad => s.(pc := if s.runningCount < s.maxConcurrency then LoopEmpty else Idle)
    case LoopEmpty => s.(pc := if s.queue == [] && s.pendingBarrierTask.None? then Idle else LoopPop)
    case LoopPop =>
      if s.queue == [] then s.(pc := Idle)
      else if s.queue[0] in s.barrierTaskIDs then
        s.(queue := s.queue[1..], barrierTaskIDs := s.barrierTaskIDs - {s.queue[0]}, pc := BarrierLoad(s.queue[0]))
      else s.(queue := s.queue[1..], pc := NormalAdd(s.queue[0]))
    case BarrierLoad(id) =>
      if s.runningCount == 0 then s.(pc := ImmediateAdd(id))
      else s.(pendingBarrierTask := Some(id), pc := Idle)
    case ImmediateAdd(id) => s.(runningCount := s.runningCount + 1, pc := Hand(id, Immediate))
    case NormalAdd(id) => s.(runningCount := s.runningCount + 1, pc := Hand(id, Normal))
  }

  /** threadPool.PostInternal */
  function HandStep(s: State): State
    requires s.pc.Hand?
  {
    s.(dispatched := s.dispatched + [Dispatch(s.pc.id, s.pc.kind, InPool)],
       pc := if s.pc.kind == Normal then LoopLoad else Idle)
  }

  /** The goroutine's next step. */
  function GoStep(s: State): State
    requires s.pc != Idle
  {
    if AtEntry(s.pc) then EntryStep(s)
    else if AtGate(s.pc) then GateStep(s)
    else if AtLoop(s.pc) then LoopStep(s)
    else HandStep(s)
  }

  predicate WorkerEvent(e: Event)
  {
    e.BodyStart? || e.BodyEnd? || e.SendReset? || e.Decrement? || e.SendComplete?
  }

  /** A worker's step on its dispatched item: body, reset closure, onTaskComplete. */
  function WorkerStep(s: State, e: Event): State
    requires WorkerEvent(e) && Enabled(s, e)
  {
    match e
    case BodyStart(d) => Move(s, d, Body)
    case BodyEnd(d) =>
      Move(s, d, if s.dispatched[d].kind == Normal then AddDue else ResetDue).(ran := s.ran + [d])
    case SendReset(d, sent) => Send(Move(s, d, AddDue), ResetC(d), sent)
    case Decrement(d) => Move(s, d, CompleteDue).(runningCount := s.runningCount - 1)
    case SendComplete(d, sent) => Send(Move(s, d, Done), CompleteC(d), sent)
  }

  /** A client's send, the goroutine's receive, and Shutdown. */
  function OuterStep(s: State, e: Event): State
    requires !WorkerEvent(e) && !e.Go? && Enabled(s, e)
  {
    match e
    case SendPost => s.(work := s.work + [PostC], sends := s.sends + [false])
    case SendFlush => s.(work := s.work + [FlushC], sends := s.sends + [true])
    case Take => s.(pc := AfterTake(s.work[0]), work := s.work[1..])
    case CloseRunner => s.(closed := true)
    case ClearQueue =>
      s.(queue := [], cleared := true, dropped := s.dropped + (set x | x in s.queue),
         line := s.line[..|s.line| - (if |s.queue| <= |s.line| then |s.queue| else 0)])
    case CloseScheduler => s.(schedulerClosed := true)
  }

  function Apply(s: State, e: Event): State
    requires Enabled(s, e)
  {
    if e.Go? then GoStep(s) else if WorkerEvent(e) then WorkerStep(s, e) else OuterStep(s, e)
  }

  function Runner(): Machine<State, Event> { Machine(Enabled, Apply) }

  // ----- bound -----

  /** Dispatched and not yet decremented. */
  function Counted(x: Dispatch): nat
  {
    if x.stage == InPool || x.stage == Body || x.stage == ResetDue || x.stage == AddDue then 1 else 0
  }

  /** The body has ended and runningCount has been decremented. */
  predicate Over(x: Dispatch) { x.stage == CompleteDue || x.stage == Done }

  function Bodies(x: Dispatch): nat { if x.stage == Body then 1 else 0 }

  predicate InLoop(pc: Pc) { AtLoop(pc) || (pc.Hand? && pc.kind != Pending) }

  ghost predicate CountInv(s: State)
  {
    && s.maxConcurrency >= 1
    && s.runningCount == Sum(s.dispatched, Counted) + (if s.pc.Hand? then 1 else 0)
    && s.runningCount <= s.maxConcurrency
    && (s.pc.LoopEmpty? || s.pc.LoopPop? || s.pc.BarrierLoad? || s.pc.NormalAdd? ==> s.runningCount < s.maxConcurrency)
    && (s.pc.PendingAdd? || s.pc.ImmediateAdd? ==> s.runningCount == 0)
    && (s.pc.Hand? && s.pc.kind != Normal ==> s.runningCount == 1)
  }

  /** What the goroutine knows about the fields only it touches. */
  ghost predicate GateInv(s: State)
  {
    && (InLoop(s.pc) ==> !s.barrierTaskRunning && s.pendingBarrierTask.None?)
    && (s.pc.PendingLoad? ==> !s.barrierTaskRunning && s.pendingBarrierTask.Some?)
    && (s.pc.PendingAdd? || (s.pc.Hand? && s.pc.kind == Pending) ==> s.barrierTaskRunning && s.pendingBarrierTask.None?)
    && (s.schedulerClosed ==> s.cleared) && (s.cleared ==> s.closed)
  }

  /** What a worker's step leaves alone. */
  predicate WorkerMoved(s: State, t: State, d: nat)
    requires |t.dispatched| == |s.dispatched|
  {
    && t.(dispatched := s.dispatched, work := s.work, runningCount := s.runningCount, ran := s.ran) == s
    && d < |s.dispatched| && t.dispatched == s.dispatched[d := s.dispatched[d].(stage := t.dispatched[d].stage)]
  }

  lemma WorkerFrame(s: State, e: Event)
    requires WorkerEvent(e) && Enabled(s, e)
    ensures |WorkerStep(s, e).dispatched| == |s.dispatched| && WorkerMoved(s, WorkerStep(s, e), e.d)
  {
    var t := WorkerStep(s, e);
    assert t.dispatched == s.dispatched[e.d := t.dispatched[e.d]];
  }

  lemma DispatchMoves(s: State, d: nat, stage: Stage)
    requires d < |s.dispatched|
    ensures var x := s.dispatched[d];
            Sum(Move(s, d, stage).dispatched, Counted) + Counted(x)
            == Sum(s.dispatched, Counted) + Counted(x.(stage := stage))
            && Counted(x) <= Sum(s.dispatched, Counted)
  {
    SumUpdate(s.dispatched, d, s.dispatched[d].(stage := stage), Counted);
    SumAt(s.dispatched, d, Counted);
  }

  lemma EntryKeepsCount(s: State)
    requires CountInv(s) && GateInv(s) && AtEntry(s.pc)
    ensures CountInv(EntryStep(s)) && GateInv(EntryStep(s))
  {
  }

  lemma GateKeepsCount(s: State)
    requires CountInv(s) && GateInv(s) && AtGate(s.pc)
    ensures CountInv(GateStep(s)) && GateInv(GateStep(s))
  {
  }

  lemma LoopKeepsCount(s: State)
    requires CountInv(s) && GateInv(s) && AtLoop(s.pc)
    ensures CountInv(LoopStep(s)) && GateInv(LoopStep(s))
  {
    hide Sum;
  }

  lemma HandKeepsCount(s: State)
    requires CountInv(s) && GateInv(s) && s.pc.Hand?
    ensures CountInv(HandStep(s)) && GateInv(HandStep(s))
  {
    SumAppend(s.dispatched, Dispatch(s.pc.id, s.pc.kind, InPool), Counted);
  }

  lemma WorkerKeepsCount(s: State, e: Event)
    requires CountInv(s) && GateInv(s) && WorkerEvent(e) && Enabled(s, e)
    ensures CountInv(WorkerStep(s, e)) && GateInv(WorkerStep(s, e))
  {
    hide Sum;
    DispatchMoves(s, e.d, WorkerStep(s, e).dispatched[e.d].stage);
  }

  lemma OuterKeepsCount(s: State, e: Event)
    requires CountInv(s) && GateInv(s) && !e.Go? && !WorkerEvent(e) && Enabled(s, e)
    ensures CountInv(OuterStep(s, e)) && GateInv(OuterStep(s, e))
  {
  }

  lemma StepKeepsCount(s: State, e: Event)
    requires CountInv(s) && GateInv(s) && Enabled(s, e)
    ensures CountInv(Apply(s, e)) && GateInv(Apply(s, e))
  {
    hide CountInv, GateInv, EntryStep, GateStep, LoopStep, HandStep, WorkerStep, OuterStep;
    if e.Go? {
      if AtEntry(s.pc) { EntryKeepsCount(s); }
      else if AtGate(s.pc) { GateKeepsCount(s); }
      else if AtLoop(s.pc) { LoopKeepsCount(s); }
      else { HandKeepsCount(s); }
    } else if WorkerEvent(e) {
      WorkerKeepsCount(s, e);
    } else {
      OuterKeepsCount(s, e);
    }
  }

  // ----- order -----

  /** The goroutine has an item in hand. */
  predicate Holding(pc: Pc)
  {
    pc.PendingAdd? || pc.BarrierLoad? || pc.ImmediateAdd? || pc.NormalAdd? || pc.Hand?
  }

  ghost predicate Increasing(q: seq<nat>)
  {
    forall i, j :: 0 <= i < j < |q| ==> q[i] < q[j]
  }

  /** The dispatches, the item in hand or pending, and the queue are the line, in this order. */
  ghost predicate Lined(s: State)
  {
    var n := |s.dispatched|;
    var m := n + (if Holding(s.pc) || s.pendingBarrierTask.Some? then 1 else 0);
    && !(Holding(s.pc) && s.pendingBarrierTask.Some?)
    && |s.line| == m + |s.queue|
    && (forall d :: 0 <= d < n ==> s.dispatched[d].id == s.line[d])
    && (Holding(s.pc) ==> s.line[n] == s.pc.id)
    && (s.pendingBarrierTask.Some? ==> s.line[n] == s.pendingBarrierTask.value)
    && (forall i :: 0 <= i < |s.queue| ==> s.queue[i] == s.line[m + i])
  }

  /** The line holds every push that was not cleared, in push order. */
  ghost predicate LineInv(s: State)
  {
    && Increasing(s.line)
    && (forall i :: 0 <= i < |s.line| ==> s.line[i] < s.pushes)
    && (forall x :: 0 <= x < s.pushes ==> x in s.line || x in s.dropped)
  }

  lemma EntryKeepsLined(s: State)
    requires Lined(s) && AtEntry(s.pc)
    ensures Lined(EntryStep(s))
  {
  }

  lemma GateKeepsLined(s: State)
    requires Lined(s) && AtGate(s.pc)
    ensures Lined(GateStep(s))
  {
  }

  lemma LoopKeepsLined(s: State)
    requires GateInv(s) && Lined(s) && AtLoop(s.pc)
    ensures Lined(LoopStep(s))
  {
    if s.pc.LoopPop? {
      PopKeepsLined(s);
    } else {
      RestKeepsLined(s);
    }
  }

  lemma RestKeepsLined(s: State)
    requires GateInv(s) && Lined(s) && AtLoop(s.pc) && !s.pc.LoopPop?
    ensures Lined(LoopStep(s))
  {
  }

  lemma PopKeepsLined(s: State)
    requires GateInv(s) && Lined(s) && s.pc.LoopPop?
    ensures Lined(LoopStep(s))
  {
    var t := LoopStep(s);
    assert t.(pc := s.pc, queue := s.queue, barrierTaskIDs := s.barrierTaskIDs) == s;
    if s.queue != [] {
      assert t.queue == s.queue[1..] && Holding(t.pc) && t.pc.id == s.queue[0];
    }
  }

  lemma HandKeepsLined(s: State)
    requires Lined(s) && s.pc.Hand?
    ensures Lined(HandStep(s))
  {
  }

  lemma PushKeepsLine(s: State, l: seq<nat>)
    requires LineInv(s) && l == s.line + [s.pushes]
    ensures Increasing(l) && (forall i :: 0 <= i < |l| ==> l[i] < s.pushes + 1)
    ensures forall x :: 0 <= x < s.pushes + 1 ==> x in l || x in s.dropped
  {
    assert l[|s.line|] == s.pushes;
    forall x | 0 <= x < s.pushes ensures x in l || x in s.dropped {
      if x in s.line {
        var i :| 0 <= i < |s.line| && s.line[i] == x;
        assert l[i] == x;
      }
    }
  }

  lemma LoopKeepsLine(s: State)
    requires AtLoop(s.pc)
    ensures var t := LoopStep(s); t.line == s.line && t.pushes == s.pushes && t.dropped == s.dropped
  {
  }

  lemma GoKeepsLine(s: State)
    requires LineInv(s) && s.pc != Idle
    ensures LineInv(GoStep(s))
  {
    if s.pc.PushTask? || s.pc.PushBarrier? {
      PushKeepsLine(s, s.line + [s.pushes]);
    } else if AtLoop(s.pc) {
      hide LoopStep;
      LoopKeepsLine(s);
    }
  }

  lemma WorkerKeepsOrder(s: State, e: Event)
    requires Lined(s) && LineInv(s) && WorkerEvent(e) && Enabled(s, e)
    ensures Lined(WorkerStep(s, e)) && LineInv(WorkerStep(s, e))
  {
    WorkerFrame(s, e);
    hide WorkerStep, Enabled;
  }

  /** Cutting the queue off the end of the line. */
  lemma CutLine(line: seq<nat>, queue: seq<nat>, k: nat, pushes: nat, dropped: set<nat>, gone: set<nat>)
    requires k + |queue| == |line| && (forall i :: 0 <= i < |queue| ==> queue[i] == line[k + i])
    requires forall x :: 0 <= x < pushes ==> x in line || x in dropped
    requires forall i :: 0 <= i < |queue| ==> queue[i] in gone
    ensures forall x :: 0 <= x < pushes ==> x in line[..k] || x in dropped + gone
  {
    forall x | 0 <= x < pushes && x !in dropped ensures x in line[..k] || x in gone {
      var i :| 0 <= i < |line| && line[i] == x;
      if i < k {
        assert line[..k][i] == x;
      } else {
        assert queue[i - k] in gone;
      }
    }
  }

  lemma ClearKeepsOrder(s: State)
    requires Lined(s) && LineInv(s) && Enabled(s, ClearQueue)
    ensures var t := OuterStep(s, ClearQueue); Lined(t) && LineInv(t)
  {
    var t := OuterStep(s, ClearQueue);
    CutLine(s.line, s.queue, |t.line|, s.pushes, s.dropped, set x | x in s.queue);
  }

  lemma OuterKeepsOrder(s: State, e: Event)
    requires Lined(s) && LineInv(s) && !e.Go? && !WorkerEvent(e) && !e.ClearQueue? && Enabled(s, e)
    ensures Lined(OuterStep(s, e)) && LineInv(OuterStep(s, e))
  {
  }

  lemma StepKeepsOrder(s: State, e: Event)
    requires GateInv(s) && Lined(s) && LineInv(s) && Enabled(s, e)
    ensures Lined(Apply(s, e)) && LineInv(Apply(s, e))
  {
    hide Lined, LineInv, GateInv, EntryStep, GateStep, LoopStep, HandStep, WorkerStep, OuterStep;
    if e.Go? {
      GoKeepsLine(s);
      if AtEntry(s.pc) { EntryKeepsLined(s); }
      else if AtGate(s.pc) { GateKeepsLined(s); }
      else if AtLoop(s.pc) { LoopKeepsLined(s); }
      else { HandKeepsLined(s); }
    } else if WorkerEvent(e) {
      WorkerKeepsOrder(s, e);
    } else if e.ClearQueue? {
      ClearKeepsOrder(s);
    } else {
      OuterKeepsOrder(s, e);
    }
  }

  // ----- barriers stay barriers -----

  ghost predicate MarkInv(s: State)
  {
    && (s.pc.MarkBarrier? ==> s.pc.id in s.barriers && (s.queue != [] ==> s.queue[|s.queue| - 1] == s.pc.id))
    && (forall i :: 0 <= i < |s.queue| ==>
          (s.queue[i] in s.barrierTaskIDs <==> s.queue[i] in s.barriers && s.pc != MarkBarrier(s.queue[i])))
    && (forall x :: x in s.barrierTaskIDs ==> x < s.pushes)
    && (forall x :: x in s.barriers ==> x < s.pushes)
    && (s.pendingBarrierTask.Some? ==> s.pendingBarrierTask.value in s.barriers)
    && (s.pc.BarrierLoad? || s.pc.ImmediateAdd? || s.pc.PendingAdd? ==> s.pc.id in s.barriers)
    && (s.pc.NormalAdd? ==> s.pc.id !in s.barriers)
    && (s.pc.Hand? ==> (s.pc.id in s.barriers <==> s.pc.kind != Normal))
    && (forall d :: 0 <= d < |s.dispatched| ==> (s.dispatched[d].id in s.barriers <==> s.dispatched[d].kind != Normal))
  }

  ghost predicate NewerQueue(s: State)
  {
    && Increasing(s.queue)
    && (forall i :: 0 <= i < |s.queue| ==> s.queue[i] < s.pushes)
    && (forall d :: 0 <= d < |s.dispatched| ==> s.dispatched[d].id < s.pushes)
    && (Holding(s.pc) ==> s.pc.id < s.pushes)
    && (s.pendingBarrierTask.Some? ==>
          && s.pendingBarrierTask.value < s.pushes
          && forall i :: 0 <= i < |s.queue| ==> s.pendingBarrierTask.value < s.queue[i])
  }

  lemma QueueIsNewer(s: State)
    requires Lined(s) && LineInv(s)
    ensures NewerQueue(s)
  {
  }

  lemma EntryKeepsMarks(s: State)
    requires MarkInv(s) && NewerQueue(s) && AtEntry(s.pc)
    ensures MarkInv(EntryStep(s))
  {
    hide MarkInv, EntryStep, NewerQueue;
    if s.pc.PushTask? || s.pc.PushBarrier? { PushKeepsMarks(s); }
    else if s.pc.MarkBarrier? { MarkingKeepsMarks(s); }
    else { ClosedCheckKeepsMarks(s); }
  }

  lemma PushKeepsMarks(s: State)
    requires MarkInv(s) && NewerQueue(s) && (s.pc.PushTask? || s.pc.PushBarrier?)
    ensures MarkInv(EntryStep(s))
  {
  }

  lemma MarkingKeepsMarks(s: State)
    requires MarkInv(s) && NewerQueue(s) && s.pc.MarkBarrier?
    ensures MarkInv(EntryStep(s))
  {
  }

  lemma ClosedCheckKeepsMarks(s: State)
    requires MarkInv(s) && (s.pc.PostCheck? || s.pc.FlushCheck?)
    ensures MarkInv(EntryStep(s))
  {
  }

  lemma GateKeepsMarks(s: State)
    requires MarkInv(s) && NewerQueue(s) && AtGate(s.pc)
    ensures MarkInv(GateStep(s))
  {
    if s.pc.PendingLoad? && s.runningCount == 0 && s.pendingBarrierTask.Some? {
      PendingKeepsMarks(s);
    } else {
      assert GateStep(s).(pc := s.pc, runningCount := s.runningCount, barrierTaskRunning := s.barrierTaskRunning) == s;
    }
  }

  lemma PendingKeepsMarks(s: State)
    requires MarkInv(s) && NewerQueue(s) && s.pc.PendingLoad? && s.runningCount == 0 && s.pendingBarrierTask.Some?
    ensures MarkInv(GateStep(s))
  {
    var t, id := GateStep(s), s.pendingBarrierTask.value;
    assert t == s.(barrierTaskIDs := s.barrierTaskIDs - {id}, pendingBarrierTask := None, barrierTaskRunning := true,
                   pc := PendingAdd(id));
    assert forall i :: 0 <= i < |s.queue| ==> s.queue[i] != id;
    hide GateStep, NewerQueue;
  }

  lemma PopKeepsMarks(s: State)
    requires MarkInv(s) && NewerQueue(s) && s.pc.LoopPop?
    ensures MarkInv(LoopStep(s))
  {
    if s.queue != [] {
      assert forall i :: 0 <= i < |s.queue| - 1 ==> s.queue[1..][i] == s.queue[i + 1] != s.queue[0];
      if s.queue[0] in s.barrierTaskIDs {
        assert LoopStep(s) == s.(queue := s.queue[1..], barrierTaskIDs := s.barrierTaskIDs - {s.queue[0]},
                                 pc := BarrierLoad(s.queue[0]));
        hide LoopStep, NewerQueue;
      } else {
        assert LoopStep(s) == s.(queue := s.queue[1..], pc := NormalAdd(s.queue[0]));
        hide LoopStep, NewerQueue;
      }
    }
  }

  lemma LoopKeepsMarks(s: State)
    requires MarkInv(s) && AtLoop(s.pc) && !s.pc.LoopPop?
    ensures MarkInv(LoopStep(s))
  {
    hide MarkInv, LoopStep;
    if s.pc.BarrierLoad? { PlacingKeepsMarks(s); }
    else if s.pc.LoopLoad? || s.pc.LoopEmpty? { TestsKeepMarks(s); }
    else { AddKeepsMarks(s); }
  }

  lemma PlacingKeepsMarks(s: State)
    requires MarkInv(s) && s.pc.BarrierLoad?
    ensures MarkInv(LoopStep(s))
  {
    assert LoopStep(s).(pc := s.pc, pendingBarrierTask := s.pendingBarrierTask) == s;
    assert LoopStep(s).pendingBarrierTask in {s.pendingBarrierTask, Some(s.pc.id)};
    assert LoopStep(s).pc in {ImmediateAdd(s.pc.id), Idle};
    hide LoopStep;
  }

  lemma TestsKeepMarks(s: State)
    requires MarkInv(s) && (s.pc.LoopLoad? || s.pc.LoopEmpty?)
    ensures MarkInv(LoopStep(s))
  {
  }

  lemma AddKeepsMarks(s: State)
    requires MarkInv(s) && (s.pc.ImmediateAdd? || s.pc.NormalAdd?)
    ensures MarkInv(LoopStep(s))
  {
  }

  lemma HandKeepsMarks(s: State)
    requires MarkInv(s) && NewerQueue(s) && s.pc.Hand?
    ensures MarkInv(HandStep(s))
  {
  }

  lemma WorkerKeepsMarks(s: State, e: Event)
    requires MarkInv(s) && WorkerEvent(e) && Enabled(s, e)
    ensures MarkInv(WorkerStep(s, e))
  {
    WorkerFrame(s, e);
    hide WorkerStep, Enabled;
  }

  lemma OuterKeepsMarks(s: State, e: Event)
    requires MarkInv(s) && !e.Go? && !WorkerEvent(e) && Enabled(s, e)
    ensures MarkInv(OuterStep(s, e))
  {
  }

  lemma StepKeepsMarks(s: State, e: Event)
    requires Lined(s) && LineInv(s) && MarkInv(s) && Enabled(s, e)
    ensures MarkInv(Apply(s, e))
  {
    hide MarkInv, Lined, LineInv, NewerQueue, EntryStep, GateStep, LoopStep, HandStep, WorkerStep, OuterStep;
    QueueIsNewer(s);
    if e.Go? {
      if AtEntry(s.pc) { EntryKeepsMarks(s); }
      else if AtGate(s.pc) { GateKeepsMarks(s); }
      else if s.pc.LoopPop? { PopKeepsMarks(s); }
      else if AtLoop(s.pc) { LoopKeepsMarks(s); }
      else { HandKeepsMarks(s); }
    } else if WorkerEvent(e) {
      WorkerKeepsMarks(s, e);
    } else {
      OuterKeepsMarks(s, e);
    }
  }

  // ----- reset closures come before completion closures -----

  ghost predicate CompleteAfter(work: seq<Closure>, i: int, d: nat)
  {
    exists j :: 0 <= j < |work| && i < j && work[j] == CompleteC(d)
  }

  /** Dispatch d still has to post its completion closure. */
  predicate Completing(s: State, d: nat) { At(s, d, AddDue) || At(s, d, CompleteDue) }

  predicate BodyOver(s: State, d: nat) { Completing(s, d) || At(s, d, Done) }

  predicate IsBarrier(s: State, d: nat) { d < |s.dispatched| && s.dispatched[d].kind != Normal }

  ghost predicate ClosureInv(s: State)
  {
    && (forall i :: 0 <= i < |s.work| && s.work[i].CompleteC? ==> At(s, s.work[i].d, Done))
    && (forall i :: 0 <= i < |s.work| && s.work[i].ResetC? ==> IsBarrier(s, s.work[i].d) && BodyOver(s, s.work[i].d))
    && (s.pc.ResetStore? ==> IsBarrier(s, s.pc.d) && BodyOver(s, s.pc.d))
    && (forall d :: 0 <= d < |s.dispatched| && s.dispatched[d].stage == ResetDue ==> IsBarrier(s, d))
  }

  /** A barrier's reset closure enters the channel before its completion closure. */
  ghost predicate ResetFirst(s: State)
  {
    !s.schedulerClosed ==>
      && (forall i :: 0 <= i < |s.work| && s.work[i].ResetC? ==>
            Completing(s, s.work[i].d) || CompleteAfter(s.work, i, s.work[i].d))
      && (s.pc.ResetStore? ==> Completing(s, s.pc.d) || CompleteAfter(s.work, -1, s.pc.d))
  }

  lemma GoKeepsClosures(s: State)
    requires ClosureInv(s) && ResetFirst(s) && s.pc != Idle
    ensures ClosureInv(GoStep(s)) && ResetFirst(GoStep(s))
  {
    var t := GoStep(s);
    GoFrame(s);
    hide GoStep;
    forall i | 0 <= i < |s.work| && s.work[i].ResetC? ensures BodyOver(t, s.work[i].d) && IsBarrier(t, s.work[i].d) {
      assert BodyOver(s, s.work[i].d);
    }
  }

  /** What the goroutine's step leaves alone. */
  ghost predicate Framed(s: State, t: State)
  {
    && t.work == s.work && !t.pc.ResetStore? && t.schedulerClosed == s.schedulerClosed && t.closed == s.closed
    && (if s.pc.Hand? then t.dispatched == s.dispatched + [Dispatch(s.pc.id, s.pc.kind, InPool)]
        else t.dispatched == s.dispatched)
  }

  lemma LoopFrame(s: State)
    requires AtLoop(s.pc)
    ensures Framed(s, LoopStep(s))
  {
  }

  lemma GoFrame(s: State)
    requires s.pc != Idle
    ensures Framed(s, GoStep(s))
  {
    hide LoopStep;
    if AtLoop(s.pc) {
      LoopFrame(s);
    }
  }

  lemma AppendKeepsAfter(work: seq<Closure>, c: Closure)
    ensures forall i: int, d: nat :: CompleteAfter(work, i, d) ==> CompleteAfter(work + [c], i, d)
    ensures c.CompleteC? ==> forall i: int :: i < |work| ==> CompleteAfter(work + [c], i, c.d)
  {
    forall i: int, d: nat | CompleteAfter(work, i, d) ensures CompleteAfter(work + [c], i, d) {
      var j :| 0 <= j < |work| && i < j && work[j] == CompleteC(d);
      assert (work + [c])[j] == CompleteC(d);
    }
    assert (work + [c])[|work|] == c;
  }

  lemma TakeKeepsAfter(work: seq<Closure>)
    requires work != []
    ensures forall i: int, d: nat :: 0 <= i && CompleteAfter(work, i, d) ==> CompleteAfter(work[1..], i - 1, d)
  {
    forall i: int, d: nat | 0 <= i && CompleteAfter(work, i, d) ensures CompleteAfter(work[1..], i - 1, d) {
      var j :| 0 <= j < |work| && i < j && work[j] == CompleteC(d);
      assert work[1..][j - 1] == CompleteC(d);
    }
  }

  lemma MoveKeepsClosures(s: State, e: Event)
    requires ClosureInv(s) && ResetFirst(s) && Enabled(s, e)
    requires e.BodyStart? || e.BodyEnd? || e.Decrement?
    ensures ClosureInv(WorkerStep(s, e)) && ResetFirst(WorkerStep(s, e))
  {
    hide CompleteAfter;
  }

  lemma SendResetKeepsClosures(s: State, d: nat, sent: bool)
    requires ClosureInv(s) && ResetFirst(s) && Enabled(s, SendReset(d, sent))
    ensures var t := WorkerStep(s, SendReset(d, sent)); ClosureInv(t) && ResetFirst(t)
  {
    AppendKeepsAfter(s.work, ResetC(d));
    hide CompleteAfter;
  }

  lemma SendCompleteKeepsClosures(s: State, d: nat, sent: bool)
    requires ClosureInv(s) && ResetFirst(s) && Enabled(s, SendComplete(d, sent)) && GateInv(s)
    ensures var t := WorkerStep(s, SendComplete(d, sent)); ClosureInv(t) && ResetFirst(t)
  {
    AppendKeepsAfter(s.work, CompleteC(d));
    hide CompleteAfter;
  }

  lemma TakeKeepsClosures(s: State)
    requires ClosureInv(s) && ResetFirst(s) && Enabled(s, Take)
    ensures var t := OuterStep(s, Take); ClosureInv(t) && ResetFirst(t)
  {
    TakeKeepsAfter(s.work);
    hide CompleteAfter;
    var t := OuterStep(s, Take);
    assert forall i :: 0 <= i < |t.work| ==> t.work[i] == s.work[i + 1];
  }

  lemma ClientSendKeepsClosures(s: State, e: Event)
    requires ClosureInv(s) && ResetFirst(s) && Enabled(s, e) && (e.SendPost? || e.SendFlush?)
    ensures ClosureInv(OuterStep(s, e)) && ResetFirst(OuterStep(s, e))
  {
    var c, t := if e.SendPost? then PostC else FlushC, OuterStep(s, e);
    assert t == s.(work := s.work + [c], sends := t.sends);
    AppendKeepsAfter(s.work, c);
    hide CompleteAfter, OuterStep;
    assert forall i :: 0 <= i < |s.work| ==> (s.work + [c])[i] == s.work[i];
  }

  lemma ShutdownKeepsClosures(s: State, e: Event)
    requires ClosureInv(s) && ResetFirst(s) && Enabled(s, e) && (e.CloseRunner? || e.ClearQueue? || e.CloseScheduler?)
    ensures ClosureInv(OuterStep(s, e)) && ResetFirst(OuterStep(s, e))
  {
    hide CompleteAfter;
  }

  lemma StepKeepsClosures(s: State, e: Event)
    requires ClosureInv(s) && ResetFirst(s) && GateInv(s) && Enabled(s, e)
    ensures ClosureInv(Apply(s, e)) && ResetFirst(Apply(s, e))
  {
    hide ClosureInv, ResetFirst, GateInv, GoStep, WorkerStep;
    if e.Go? {
      GoKeepsClosures(s);
    } else if e.SendReset? {
      SendResetKeepsClosures(s, e.d, e.sent);
    } else if e.SendComplete? {
      SendCompleteKeepsClosures(s, e.d, e.sent);
    } else if WorkerEvent(e) {
      MoveKeepsClosures(s, e);
    } else if e.Take? {
      TakeKeepsClosures(s);
    } else if e.SendPost? || e.SendFlush? {
      ClientSendKeepsClosures(s, e);
    } else {
      ShutdownKeepsClosures(s, e);
    }
  }

  // ----- the flag, and who will call tryScheduleInternal again -----

  /** Barrier d has been dispatched and its reset closure has not run. */
  predicate ResetPending(s: State, d: nat)
  {
    && IsBarrier(s, d)
    && (!BodyOver(s, d) || ResetC(d) in s.work || s.pc == ResetStore(d))
  }

  /** Dispatch d will still have its completion closure run. */
  predicate Unsettled(s: State, d: nat)
  {
    d < |s.dispatched| && (s.dispatched[d].stage != Done || CompleteC(d) in s.work)
  }

  ghost predicate FlagInv(s: State)
  {
    s.barrierTaskRunning && !s.schedulerClosed ==>
      s.pc.PendingAdd? || (s.pc.Hand? && s.pc.kind == Pending) || exists d :: ResetPending(s, d)
  }

  /** Between closures, waiting items have somebody who will look at them again. */
  ghost predicate StallInv(s: State)
  {
    !s.closed && (s.pc.Idle? || s.pc.ResetStore?) && (s.queue != [] || s.pendingBarrierTask.Some?) ==>
      exists d :: Unsettled(s, d)
  }

  lemma PendingResetReports(s: State, d: nat)
    requires ClosureInv(s) && ResetFirst(s) && !s.schedulerClosed && ResetPending(s, d)
    ensures Unsettled(s, d)
  {
    if BodyOver(s, d) && !Completing(s, d) && ResetC(d) in s.work {
      var i :| 0 <= i < |s.work| && s.work[i] == ResetC(d);
      assert CompleteAfter(s.work, i, d);
    }
  }

  lemma CountedReports(s: State)
    requires CountInv(s) && s.runningCount > 0 && !s.pc.Hand?
    ensures exists d :: Unsettled(s, d)
  {
    var d := SumWitness(s.dispatched, Counted);
    assert Unsettled(s, d);
  }

  /** Only receiving its completion closure settles a dispatch. */
  lemma StaysUnsettled(s: State, e: Event, d: nat)
    requires Unsettled(s, d) && Enabled(s, e) && (e.Take? ==> s.work[0] != CompleteC(d))
    requires e.SendComplete? ==> e.sent
    ensures Unsettled(Apply(s, e), d)
  {
    hide GoStep, WorkerStep, OuterStep, Unsettled;
    if e.Go? {
      GoStaysUnsettled(s, d);
    } else if WorkerEvent(e) {
      WorkerStaysUnsettled(s, e, d);
    } else {
      OuterStaysUnsettled(s, e, d);
    }
  }

  lemma GoStaysUnsettled(s: State, d: nat)
    requires Unsettled(s, d) && s.pc != Idle
    ensures Unsettled(GoStep(s), d)
  {
    GoFrame(s);
    hide GoStep;
  }

  lemma WorkerStaysUnsettled(s: State, e: Event, d: nat)
    requires Unsettled(s, d) && WorkerEvent(e) && Enabled(s, e) && (e.SendComplete? ==> e.sent)
    ensures Unsettled(WorkerStep(s, e), d)
  {
  }

  lemma OuterStaysUnsettled(s: State, e: Event, d: nat)
    requires Unsettled(s, d) && !WorkerEvent(e) && !e.Go? && Enabled(s, e) && (e.Take? ==> s.work[0] != CompleteC(d))
    ensures Unsettled(OuterStep(s, e), d)
  {
    if CompleteC(d) in s.work {
      var j :| 0 <= j < |s.work| && s.work[j] == CompleteC(d);
      if e.Take? {
        assert s.work[1..][j - 1] == CompleteC(d);
      }
    }
  }

  lemma GoStaysPending(s: State, d: nat)
    requires ResetPending(s, d) && s.pc != Idle && s.pc != ResetStore(d)
    ensures ResetPending(GoStep(s), d)
  {
    GoFrame(s);
    hide GoStep;
  }

  lemma WorkerStaysPending(s: State, e: Event, d: nat)
    requires ResetPending(s, d) && WorkerEvent(e) && Enabled(s, e)
    requires e.SendReset? ==> e.sent
    ensures ResetPending(WorkerStep(s, e), d)
  {
    var t := WorkerStep(s, e);
    if ResetC(d) in s.work {
      var j :| 0 <= j < |s.work| && s.work[j] == ResetC(d);
      assert t.work[j] == ResetC(d);
    }
  }

  lemma StaysPending(s: State, e: Event, d: nat)
    requires ResetPending(s, d) && Enabled(s, e) && !(e.Go? && s.pc == ResetStore(d))
    requires e.SendReset? ==> e.sent
    ensures ResetPending(Apply(s, e), d)
  {
    hide GoStep, WorkerStep;
    if e.Go? {
      GoStaysPending(s, d);
    } else if WorkerEvent(e) {
      WorkerStaysPending(s, e, d);
    } else if ResetC(d) in s.work {
      var j :| 0 <= j < |s.work| && s.work[j] == ResetC(d);
      if e.Take? && j > 0 {
        assert s.work[1..][j - 1] == ResetC(d);
      }
    }
  }

  lemma GoKeepsFlag(s: State)
    requires FlagInv(s) && GateInv(s) && s.pc != Idle
    ensures FlagInv(GoStep(s))
  {
    var t := GoStep(s);
    if t.barrierTaskRunning && !t.schedulerClosed && !t.pc.PendingAdd? && !(t.pc.Hand? && t.pc.kind == Pending) {
      if s.pc.Hand? {
        assert ResetPending(t, |s.dispatched|);
      } else {
        assert !s.pc.ResetStore? && !s.pc.PendingAdd?;
        var d :| ResetPending(s, d);
        StaysPending(s, Go, d);
        assert t == Apply(s, Go);
      }
    }
  }

  lemma StepKeepsFlag(s: State, e: Event)
    requires FlagInv(s) && GateInv(s) && Enabled(s, e)
    ensures FlagInv(Apply(s, e))
  {
    if e.Go? {
      GoKeepsFlag(s);
    } else {
      var t := Apply(s, e);
      if t.barrierTaskRunning && !t.schedulerClosed && !t.pc.PendingAdd? && !(t.pc.Hand? && t.pc.kind == Pending) {
        var d :| ResetPending(s, d);
        StaysPending(s, e, d);
      }
    }
  }

  lemma GoKeepsStall(s: State)
    requires CountInv(s) && GateInv(s) && ClosureInv(s) && ResetFirst(s) && FlagInv(s) && StallInv(s) && s.pc != Idle
    ensures StallInv(GoStep(s))
  {
    var t := GoStep(s);
    GoFrame(s);
    if !t.closed && t.pc.Idle? && (t.queue != [] || t.pendingBarrierTask.Some?) {
      if s.pc.ResetStore? {
        var d :| Unsettled(s, d);
        StaysUnsettled(s, Go, d);
      } else if s.pc.Gate? {
        assert s.barrierTaskRunning;
        var d :| ResetPending(s, d);
        PendingResetReports(s, d);
        StaysUnsettled(s, Go, d);
      } else if s.pc.Hand? {
        assert Unsettled(t, |s.dispatched|);
      } else {
        assert s.runningCount > 0;
        CountedReports(s);
        var d :| Unsettled(s, d);
        StaysUnsettled(s, Go, d);
      }
    }
  }

  lemma StepKeepsStall(s: State, e: Event)
    requires CountInv(s) && GateInv(s) && ClosureInv(s) && ResetFirst(s) && FlagInv(s) && StallInv(s) && Enabled(s, e)
    ensures StallInv(Apply(s, e))
  {
    if e.Go? {
      GoKeepsStall(s);
    } else {
      var t := Apply(s, e);
      if !t.closed && (t.pc.Idle? || t.pc.ResetStore?) && (t.queue != [] || t.pendingBarrierTask.Some?) {
        var d :| Unsettled(s, d);
        StaysUnsettled(s, e, d);
      }
    }
  }

  // ----- every run -----

  ghost predicate Inv(s: State)
  {
    && CountInv(s) && GateInv(s) && Lined(s) && LineInv(s) && MarkInv(s)
    && ClosureInv(s) && ResetFirst(s) && FlagInv(s) && StallInv(s)
  }

  lemma InitInv(max: nat)
    requires max >= 1
    ensures Inv(Init(max))
  {
  }

  lemma StepKeepsInv(s: State, e: Event)
    requires Inv(s) && Enabled(s, e)
    ensures Inv(Apply(s, e))
  {
    hide CountInv, GateInv, Lined, LineInv, MarkInv, ClosureInv, ResetFirst, FlagInv, StallInv, Apply,
         Enabled;
    StepKeepsCount(s, e);
    StepKeepsOrder(s, e);
    StepKeepsMarks(s, e);
    StepKeepsClosures(s, e);
    StepKeepsFlag(s, e);
    StepKeepsStall(s, e);
  }

  /** NewParallelTaskRunner demands maxConcurrency >= 1. */
  ghost predicate Reachable(s: State) { exists max: nat :: max >= 1 && Runner().Reaches(Init(max), s) }

  lemma ReachableInv(s: State)
    requires Reachable(s)
    ensures Inv(s)
  {
    hide Inv, Enabled, Apply, Init;
    var max: nat :| max >= 1 && Runner().Reaches(Init(max), s);
    InitInv(max);
    forall s, e | Inv(s) && Enabled(s, e) ensures Inv(Apply(s, e)) {
      StepKeepsInv(s, e);
    }
    InvariantReached(Runner(), s => Inv(s), Init(max), s);
  }

  /** The order that NeverStalls rests on: as long as the internal runner is open, a
      reset closure in the channel has its barrier's completion closure behind it or
      still to come, so whoever clears the flag is followed by a scheduling attempt. */
  lemma ResetBeforeCompletion(s: State, i: nat)
    requires Reachable(s) && !s.schedulerClosed && i < |s.work| && s.work[i].ResetC?
    ensures IsBarrier(s, s.work[i].d)
    ensures Completing(s, s.work[i].d) || exists k :: i < k < |s.work| && s.work[k] == CompleteC(s.work[i].d)
  {
    ReachableInv(s);
    assert Completing(s, s.work[i].d) || CompleteAfter(s.work, i, s.work[i].d);
  }

  lemma {:induction false} BodiesAreCounted(ds: seq<Dispatch>)
    ensures Sum(ds, Bodies) <= Sum(ds, Counted)
  {
    if ds != [] {
      BodiesAreCounted(ds[1..]);
    }
  }

  /** Never more than maxConcurrency bodies, however decrements interleave with the loop. */
  lemma ConcurrencyBound(s: State)
    requires Reachable(s)
    ensures Sum(s.dispatched, Bodies) <= s.runningCount <= s.maxConcurrency
  {
    ReachableInv(s);
    BodiesAreCounted(s.dispatched);
  }

  /** Items are dispatched in push order, each at most once and none skipped: the
      dispatches, the item in hand or pending and the queue are exactly the pushes
      that Shutdown did not clear, and barriers are dispatched as barriers. */
  lemma DispatchOrder(s: State)
    requires Reachable(s)
    ensures forall c, d :: 0 <= c < d < |s.dispatched| ==> s.dispatched[c].id < s.dispatched[d].id
    ensures forall x :: 0 <= x < s.pushes && x !in s.dropped ==>
              || (exists d :: 0 <= d < |s.dispatched| && s.dispatched[d].id == x)
              || (Holding(s.pc) && s.pc.id == x) || s.pendingBarrierTask == Some(x) || x in s.queue
    ensures forall d :: 0 <= d < |s.dispatched| ==>
            (s.dispatched[d].kind != Normal <==> s.dispatched[d].id in s.barriers)
  {
    ReachableInv(s);
    forall x | 0 <= x < s.pushes && x !in s.dropped
      ensures || (exists d :: 0 <= d < |s.dispatched| && s.dispatched[d].id == x)
              || (Holding(s.pc) && s.pc.id == x) || s.pendingBarrierTask == Some(x) || x in s.queue
    {
      var i :| 0 <= i < |s.line| && s.line[i] == x;
      var n := |s.dispatched|;
      var m := n + (if Holding(s.pc) || s.pendingBarrierTask.Some? then 1 else 0);
      if i < n {
        assert s.dispatched[i].id == x;
      } else if i >= m {
        assert s.queue[i - m] == x;
      }
    }
  }

  /** Barrier drain: when a barrier is handed to the pool, by either branch, every
      item pushed before it and not cleared has been dispatched and its body is over. */
  lemma BarrierDrains(s: State)
    requires Reachable(s) && s.pc.Hand? && s.pc.kind != Normal
    ensures forall x :: 0 <= x < s.pc.id && x !in s.dropped ==>
              exists d :: 0 <= d < |s.dispatched| && s.dispatched[d].id == x && Over(s.dispatched[d])
    ensures forall d :: 0 <= d < |s.dispatched| ==>
              s.dispatched[d].id < s.pc.id && Over(s.dispatched[d])
  {
    ReachableInv(s);
    DispatchOrder(s);
    forall d | 0 <= d < |s.dispatched| ensures Over(s.dispatched[d]) {
      SumAt(s.dispatched, d, Counted);
    }
    forall x | 0 <= x < s.pc.id && x !in s.dropped
      ensures exists d :: 0 <= d < |s.dispatched| && s.dispatched[d].id == x && Over(s.dispatched[d])
    {
      assert forall i :: 0 <= i < |s.queue| ==> s.queue[i] > s.pc.id;
      var d :| 0 <= d < |s.dispatched| && s.dispatched[d].id == x;
    }
  }

  /** An open runner never stalls: once no closure is queued or running and every
      dispatch has finished posting its completion, nothing is left behind. */
  lemma NeverStalls(s: State)
    requires Reachable(s) && !s.closed
    requires s.pc == Idle && s.work == [] && forall d :: 0 <= d < |s.dispatched| ==> s.dispatched[d].stage == Done
    ensures s.queue == [] && s.pendingBarrierTask.None? && !s.barrierTaskRunning && s.runningCount == 0
  {
    ReachableInv(s);
    SumZero(s.dispatched, Counted);
    if s.barrierTaskRunning {
      var d :| ResetPending(s, d);
      PendingResetReports(s, d);
    }
  }

  // ----- the runner comes to rest -----

  /** The steps a closure in the channel leads to, its item's included. */
  function ClosureWeight(c: Closure): nat
  {
    match c
    case PostC => 25 case FlushC => 26 case CompleteC(_) => 5 case ResetC(_) => 2
  }

  function StageWeight(x: Dispatch): nat
  {
    match x.stage
    case InPool => 12 case Body => 11 case ResetDue => 10 case AddDue => 7 case CompleteDue => 6 case Done => 0
  }

  function PcWeight(pc: Pc): nat
  {
    match pc
    case Idle => 0
    case PostCheck => 24 case FlushCheck => 25 case PushTask => 23 case PushBarrier => 24 case MarkBarrier(_) => 5
    case Gate => 4 case PendingLoad => 1 case PendingAdd(_) => 17
    case LoopLoad => 3 case LoopEmpty => 2 case LoopPop => 1
    case BarrierLoad(_) => 18 case ImmediateAdd(_) => 17 case NormalAdd(_) => 17
    case Hand(_, _) => 16 case ResetStore(_) => 1
  }

  function Work(s: State): nat
  {
    Sum(s.work, ClosureWeight) + Sum(s.dispatched, StageWeight) + 18 * |s.queue|
    + (if s.pendingBarrierTask.Some? then 17 else 0) + PcWeight(s.pc)
  }

  /** Steps of the goroutine and of the workers. */
  predicate Internal(e: Event) { e.Take? || e.Go? || WorkerEvent(e) }

  lemma GoSpendsWork(s: State)
    requires s.pc != Idle
    ensures Work(GoStep(s)) < Work(s)
  {
    hide EntryStep, GateStep, LoopStep, HandStep;
    if AtEntry(s.pc) { EntrySpends(s); }
    else if AtGate(s.pc) { GateSpends(s); }
    else if AtLoop(s.pc) { LoopSpends(s); }
    else { HandSpends(s); }
  }

  function Held(s: State): nat { 18 * |s.queue| + (if s.pendingBarrierTask.Some? then 17 else 0) + PcWeight(s.pc) }

  lemma SameClosures(s: State, t: State)
    requires t.work == s.work && t.dispatched == s.dispatched
    ensures Work(t) - Held(t) == Work(s) - Held(s)
  {
  }

  lemma EntrySpends(s: State)
    requires AtEntry(s.pc)
    ensures Work(EntryStep(s)) < Work(s)
  {
  }

  lemma GateSpends(s: State)
    requires AtGate(s.pc)
    ensures Work(GateStep(s)) < Work(s)
  {
    hide Sum;
  }

  lemma LoopSpends(s: State)
    requires AtLoop(s.pc)
    ensures Work(LoopStep(s)) < Work(s)
  {
    hide LoopStep, Work;
    if s.pc.LoopPop? { PopSpends(s); }
    else if s.pc.BarrierLoad? { PlacingSpends(s); }
    else { AdvanceSpends(s); }
  }

  lemma PopSpends(s: State)
    requires s.pc.LoopPop?
    ensures Work(LoopStep(s)) < Work(s)
  {
    hide Work;
    SameClosures(s, LoopStep(s));
  }

  lemma PlacingSpends(s: State)
    requires s.pc.BarrierLoad?
    ensures Work(LoopStep(s)) < Work(s)
  {
    hide Work;
    SameClosures(s, LoopStep(s));
  }

  lemma AdvanceSpends(s: State)
    requires AtLoop(s.pc) && !s.pc.LoopPop? && !s.pc.BarrierLoad?
    ensures Work(LoopStep(s)) < Work(s)
  {
  }

  lemma HandSpends(s: State)
    requires s.pc.Hand?
    ensures Work(HandStep(s)) < Work(s)
  {
    SumAppend(s.dispatched, Dispatch(s.pc.id, s.pc.kind, InPool), StageWeight);
  }

  lemma MoveSpends(s: State, d: nat, stage: Stage)
    requires d < |s.dispatched|
    ensures Work(Move(s, d, stage)) + StageWeight(s.dispatched[d])
            == Work(s) + StageWeight(s.dispatched[d].(stage := stage))
  {
    SumUpdate(s.dispatched, d, s.dispatched[d].(stage := stage), StageWeight);
  }

  lemma SendSpends(s: State, c: Closure, sent: bool)
    ensures Work(Send(s, c, sent)) <= Work(s) + ClosureWeight(c)
  {
    SumAppend(s.work, c, ClosureWeight);
  }

  lemma LessCounted(s: State, n: int)
    ensures Work(s.(runningCount := n)) == Work(s)
  {
  }

  lemma AlsoRan(s: State, ran: seq<nat>)
    ensures Work(s.(ran := ran)) == Work(s)
  {
  }

  lemma WorkerSpends(s: State, e: Event)
    requires WorkerEvent(e) && Enabled(s, e)
    ensures Work(WorkerStep(s, e)) < Work(s)
  {
    hide Work, Move, Send;
    match e {
      case BodyStart(d) => MoveSpends(s, d, Body);
      case BodyEnd(d) =>
        var stage := if s.dispatched[d].kind == Normal then AddDue else ResetDue;
        MoveSpends(s, d, stage);
        AlsoRan(Move(s, d, stage), s.ran + [d]);
      case SendReset(d, sent) =>
        MoveSpends(s, d, AddDue);
        SendSpends(Move(s, d, AddDue), ResetC(d), sent);
      case Decrement(d) =>
        MoveSpends(s, d, CompleteDue);
        LessCounted(Move(s, d, CompleteDue), s.runningCount - 1);
      case SendComplete(d, sent) =>
        MoveSpends(s, d, Done);
        SendSpends(Move(s, d, Done), CompleteC(d), sent);
    }
  }

  lemma TakeSpends(s: State)
    requires Enabled(s, Take)
    ensures Work(OuterStep(s, Take)) < Work(s)
  {
    assert Sum(s.work, ClosureWeight) == ClosureWeight(s.work[0]) + Sum(s.work[1..], ClosureWeight);
  }

  lemma InternalStepsSpendWork(s: State, e: Event)
    requires Enabled(s, e) && Internal(e)
    ensures Work(Apply(s, e)) < Work(s)
  {
    hide Work, GoStep, WorkerStep, OuterStep;
    if e.Go? { GoSpendsWork(s); }
    else if e.Take? { TakeSpends(s); }
    else { WorkerSpends(s, e); }
  }

  /** Once clients stop, goroutine and workers take no more steps than Work says; an
      open runner that can take none has nothing left. */
  lemma {:induction false} RunnerDrains(s: State, more: seq<Event>)
    requires Reachable(s) && Runner().Legal(s, more) && forall i :: 0 <= i < |more| ==> Internal(more[i])
    ensures |more| <= Work(s)
    ensures var t := Runner().After(s, more);
            !t.closed && (forall e :: Internal(e) ==> !Enabled(t, e)) ==>
              t.queue == [] && t.pendingBarrierTask.None? && !t.barrierTaskRunning && t.runningCount == 0
    decreases |more|
  {
    hide Work, Enabled, Apply, Internal, Reachable;
    if more == [] {
      if !s.closed && forall e :: Internal(e) ==> !Enabled(s, e) {
        RestedRunnerIsDone(s);
      }
    } else {
      InternalStepsSpendWork(s, more[0]);
      var t := Next(s, more[0]);
      RunnerDrains(t, more[1..]);
    }
  }

  lemma RestedRunnerIsDone(s: State)
    requires Reachable(s) && !s.closed && forall e :: Internal(e) ==> !Enabled(s, e)
    ensures s.queue == [] && s.pendingBarrierTask.None? && !s.barrierTaskRunning && s.runningCount == 0
  {
    hide Reachable;
    assert !Enabled(s, Go) && !Enabled(s, Take);
    forall d | 0 <= d < |s.dispatched| ensures s.dispatched[d].stage == Done {
      assert !Enabled(s, BodyStart(d)) && !Enabled(s, BodyEnd(d)) && !Enabled(s, SendReset(d, true));
      assert !Enabled(s, Decrement(d)) && !Enabled(s, SendComplete(d, true));
    }
    NeverStalls(s);
  }

  // ----- when a barrier keeps later items out -----

  /** Runs on which the reset closure of dispatch d has not executed. */
  function UntilReset(d: nat): Machine<State, Event>
  {
    Machine((s, e) => Enabled(s, e) && !(e.Go? && s.pc == ResetStore(d)), Apply)
  }

  /** Barrier d is the last dispatch, the others are over, and only its own reset can open the gate. */
  ghost predicate Alone(s: State, d: nat)
  {
    && s.barrierTaskRunning && |s.dispatched| == d + 1
    && (forall c :: ResetPending(s, c) ==> c == d)
    && (s.pc.Idle? || AtEntry(s.pc) || s.pc.Gate? || s.pc == ResetStore(d))
    && (forall c :: 0 <= c < d ==> Over(s.dispatched[c]))
  }

  lemma GoStaysAlone(s: State, d: nat)
    requires Alone(s, d) && s.pc != Idle && s.pc != ResetStore(d)
    ensures Alone(GoStep(s), d)
  {
    forall c | ResetPending(GoStep(s), c) ensures ResetPending(s, c) {
    }
  }

  lemma TakeStaysAlone(s: State, d: nat)
    requires Alone(s, d) && ClosureInv(s) && Enabled(s, Take)
    ensures Alone(OuterStep(s, Take), d)
  {
    var t := OuterStep(s, Take);
    if s.work[0].ResetC? {
      assert ResetPending(s, s.work[0].d);
    }
    forall c | ResetPending(t, c) ensures ResetPending(s, c) {
      if ResetC(c) in t.work {
        assert ResetC(c) in s.work;
      }
    }
  }

  lemma WorkerStaysAlone(s: State, e: Event, d: nat)
    requires Alone(s, d) && ClosureInv(s) && WorkerEvent(e) && Enabled(s, e)
    ensures Alone(WorkerStep(s, e), d)
  {
    var t := WorkerStep(s, e);
    forall c: nat | ResetPending(t, c) ensures c == d {
      if c != d {
        assert Over(s.dispatched[c]);
        assert ResetC(c) in t.work ==> ResetC(c) in s.work;
        assert ResetPending(s, c);
      }
    }
  }

  lemma StepStaysAlone(s: State, e: Event, d: nat)
    requires Inv(s) && Alone(s, d) && Enabled(s, e) && !(e.Go? && s.pc == ResetStore(d))
    ensures Alone(Apply(s, e), d)
  {
    hide GoStep, WorkerStep;
    if e.Go? {
      GoStaysAlone(s, d);
    } else if WorkerEvent(e) {
      WorkerStaysAlone(s, e, d);
    } else if e.Take? {
      TakeStaysAlone(s, d);
    } else {
      forall c | ResetPending(Apply(s, e), c) ensures ResetPending(s, c) {
      }
    }
  }

  /** A barrier dispatched by postBarrierTaskInternal while no other reset closure
      is outstanding runs alone: until its own reset closure executes nothing else
      is dispatched, and no other body is running. */
  lemma BarrierRunsAlone(s: State, t: State)
    requires Reachable(s) && s.pc.Hand? && s.pc.kind == Pending && forall c :: !ResetPending(s, c)
    requires UntilReset(|s.dispatched|).Reaches(GoStep(s), t)
    ensures t.barrierTaskRunning && |t.dispatched| == |s.dispatched| + 1
    ensures forall c :: 0 <= c < |s.dispatched| ==> Over(t.dispatched[c])
  {
    var d, u := |s.dispatched|, GoStep(s);
    ReachableInv(s);
    BarrierDrains(s);
    forall c | ResetPending(u, c) ensures c == d {
      if c != d {
        assert ResetPending(s, c);
      }
    }
    assert Alone(u, d);
    assert u == Apply(s, Go);
    StepKeepsInv(s, Go);
    AloneReached(u, t, d);
  }

  lemma AloneReached(u: State, t: State, d: nat)
    requires Inv(u) && Alone(u, d) && UntilReset(d).Reaches(u, t)
    ensures Alone(t, d)
  {
    hide Inv, Alone, Enabled, Apply;
    var inv := (s: State) => Inv(s) && Alone(s, d);
    forall s, e | inv(s) && UntilReset(d).Can(s, e) ensures inv(UntilReset(d).next(s, e)) {
      StepKeepsInv(s, e);
      StepStaysAlone(s, e, d);
    }
    InvariantReached(UntilReset(d), inv, u, t);
  }

  /** While the flag is set the goroutine works off the closure at the head of the
      channel without dispatching anything. */
  lemma HeadClosureRuns(s: State, d: nat) returns (t: State)
    requires s.pc == Idle && s.barrierTaskRunning && s.work != [] && !s.work[0].ResetC?
    ensures UntilReset(d).Reaches(s, t)
    ensures t.pc == Idle && t.barrierTaskRunning && t.work == s.work[1..] && t.dispatched == s.dispatched
  {
    hide Machine.Reaches;
    ReachesItself(UntilReset(d), s);
    t := OneMore(s, s, Take, d);
    if AtEntry(t.pc) {
      t := EntryRuns(s, t, d);
    }
    if t.pc == Gate {
      t := OneMore(s, t, Go, d);
    }
  }

  lemma EntryRuns(s: State, u: State, d: nat) returns (t: State)
    requires UntilReset(d).Reaches(s, u) && (u.pc == PostCheck || u.pc == FlushCheck)
    ensures UntilReset(d).Reaches(s, t) && (t.pc == Idle || t.pc == Gate)
    ensures t.barrierTaskRunning == u.barrierTaskRunning && t.work == u.work && t.dispatched == u.dispatched
  {
    hide Machine.Reaches;
    t := OneMore(s, u, Go, d);
    if t.pc != Idle {
      t := OneMore(s, t, Go, d);
      if t.pc.MarkBarrier? {
        t := OneMore(s, t, Go, d);
      }
    }
  }

  lemma OneMore(s: State, u: State, e: Event, d: nat) returns (t: State)
    requires UntilReset(d).Reaches(s, u) && Enabled(u, e) && !(e.Go? && u.pc == ResetStore(d))
    ensures t == Apply(u, e) && UntilReset(d).Reaches(s, t)
  {
    t := Apply(u, e);
    hide Apply, Enabled;
    ReachesNext(UntilReset(d), s, u, e);
  }

  /** A foreign reset closure in the channel opens the gate. */
  lemma {:induction false} ForeignResetOpens(s: State, d: nat, k: nat) returns (t: State)
    requires s.pc == Idle && s.barrierTaskRunning && k < |s.work| && s.work[k].ResetC?
    requires ResetC(d) !in s.work
    ensures UntilReset(d).Reaches(s, t) && !t.barrierTaskRunning && t.dispatched == s.dispatched
    decreases k
  {
    hide Machine.Reaches;
    if s.work[0].ResetC? {
      ReachesItself(UntilReset(d), s);
      t := OneMore(s, s, Take, d);
      t := OneMore(s, t, Go, d);
    } else {
      var u := HeadClosureRuns(s, d);
      t := ForeignResetOpens(u, d, k - 1);
      ReachesFurther(UntilReset(d), s, u, t);
    }
  }

  /** Exactly when a barrier keeps the gate shut until its own reset closure runs:
      it was dispatched through the pending branch and no other barrier's reset
      closure was outstanding. Otherwise some schedule opens the gate while the
      barrier is still waiting in the pool. */
  lemma GateStaysShutIff(s: State)
    requires Reachable(s) && s.pc.Hand? && s.pc.kind != Normal
    ensures (forall t :: UntilReset(|s.dispatched|).Reaches(GoStep(s), t) ==> t.barrierTaskRunning)
            <==> s.pc.kind == Pending && forall c :: !ResetPending(s, c)
  {
    var d, u := |s.dispatched|, GoStep(s);
    if s.pc.kind == Pending && forall c :: !ResetPending(s, c) {
      forall t | UntilReset(d).Reaches(u, t) ensures t.barrierTaskRunning {
        BarrierRunsAlone(s, t);
      }
    } else {
      var t := GateOpens(s);
      assert UntilReset(d).Reaches(u, t) && !t.barrierTaskRunning;
    }
  }

  lemma GateOpens(s: State) returns (t: State)
    requires Reachable(s) && s.pc.Hand? && s.pc.kind != Normal
    requires s.pc.kind == Immediate || exists c :: ResetPending(s, c)
    ensures UntilReset(|s.dispatched|).Reaches(GoStep(s), t) && !t.barrierTaskRunning
  {
    hide Machine.Reaches;
    var d, u := |s.dispatched|, GoStep(s);
    ReachableInv(s);
    if s.pc.kind == Immediate {
      ReachesItself(UntilReset(d), u);
      t := u;
    } else {
      var c :| ResetPending(s, c);
      BarrierDrains(s);
      var k :| 0 <= k < |s.work| && s.work[k] == ResetC(c);
      assert ResetC(d) !in s.work;
      t := ForeignResetOpens(u, d, k);
    }
  }

  // ----- the promise of FlushAsync -----

  ghost predicate From(max: nat, s: State) { Runner().Reaches(Init(max), s) }

  /** The callback of dispatch c has not returned. */
  predicate CallbackDue(s: State, c: nat) { IsBarrier(s, c) && (At(s, c, InPool) || At(s, c, Body)) }

  /** "Tasks posted after FlushAsync will not run before the callback." */
  ghost predicate KeepsPromise(s: State)
  {
    forall c, d :: 0 <= c < d < |s.dispatched| && CallbackDue(s, c) ==> s.dispatched[d].stage == InPool
  }

  /** With one slot a dispatch follows only when the one before has been decremented. */
  ghost predicate OneAtATime(s: State)
  {
    && s.maxConcurrency == 1
    && (forall c :: 0 <= c < |s.dispatched| - 1 ==> Over(s.dispatched[c]))
    && (s.pc.Hand? ==> forall c :: 0 <= c < |s.dispatched| ==> Over(s.dispatched[c]))
  }

  lemma AllOver(s: State)
    requires CountInv(s) && s.maxConcurrency == 1 && (s.pc.Hand? || s.runningCount == 0)
    ensures forall c :: 0 <= c < |s.dispatched| ==> Over(s.dispatched[c])
  {
    forall c | 0 <= c < |s.dispatched| ensures Over(s.dispatched[c]) {
      SumAt(s.dispatched, c, Counted);
    }
  }

  lemma OneAtATimeStays(s: State, e: Event)
    requires Inv(s) && OneAtATime(s) && Enabled(s, e)
    ensures OneAtATime(Apply(s, e))
  {
    var t := Apply(s, e);
    hide Lined, LineInv, MarkInv, ClosureInv, ResetFirst, FlagInv, StallInv, Sum, GoStep, WorkerStep, CountInv;
    assert CountInv(t) by { StepKeepsInv(s, e); }
    if e.Go? {
      OneAtATimeGoes(s);
    } else if WorkerEvent(e) {
      OneAtATimeWorks(s, e);
    }
    if t.pc.Hand? {
      hide Apply;
      AllOver(t);
    }
  }

  lemma OneAtATimeWorks(s: State, e: Event)
    requires OneAtATime(s) && WorkerEvent(e) && Enabled(s, e)
    ensures var t := WorkerStep(s, e);
            t.maxConcurrency == 1 && forall c :: 0 <= c < |t.dispatched| - 1 ==> Over(t.dispatched[c])
  {
  }

  lemma OneAtATimeGoes(s: State)
    requires OneAtATime(s) && s.pc != Idle
    ensures var t := GoStep(s);
            t.maxConcurrency == 1 && forall c :: 0 <= c < |t.dispatched| - 1 ==> Over(t.dispatched[c])
  {
    if s.pc.Hand? {
      assert GoStep(s).dispatched[..|s.dispatched|] == s.dispatched;
    } else {
      assert GoStep(s).dispatched == s.dispatched;
    }
  }

  lemma OneSlotKeepsPromise(s: State)
    requires From(1, s)
    ensures KeepsPromise(s)
  {
    hide Inv, OneAtATime, Enabled, Apply, KeepsPromise;
    InitInv(1);
    assert OneAtATime(Init(1)) by { OneSlotBegins(); }
    var inv := (s: State) => Inv(s) && OneAtATime(s);
    forall s, e | inv(s) && Enabled(s, e) ensures inv(Apply(s, e)) {
      StepKeepsInv(s, e);
      OneAtATimeStays(s, e);
    }
    InvariantReached(Runner(), inv, Init(1), s);
    OneAtATimeKeepsPromise(s);
  }

  lemma OneSlotBegins()
    ensures OneAtATime(Init(1))
  {
  }

  lemma OneAtATimeKeepsPromise(s: State)
    requires OneAtATime(s)
    ensures KeepsPromise(s)
  {
  }

  /** FlushAsync keeps its promise, on every run, if and only if the runner was made
      with one slot: with more the immediate branch lets later tasks past. */
  lemma FlushKeepsItsPromiseIff(max: nat)
    requires max >= 1
    ensures (forall s :: From(max, s) ==> KeepsPromise(s)) <==> max == 1
  {
    if max == 1 {
      forall s | From(1, s) ensures KeepsPromise(s) {
        OneSlotKeepsPromise(s);
      }
    } else {
      LaterTaskCanOvertakeFlush(max);
      var s :| From(max, s) && s.dispatched == [Dispatch(0, Immediate, InPool), Dispatch(1, Normal, Body)];
      assert CallbackDue(s, 0) && s.dispatched[1].stage == Body;
    }
  }

  lemma NextFrom(max: nat, s: State, e: Event) returns (t: State)
    requires From(max, s) && Enabled(s, e)
    ensures t == Apply(s, e) && From(max, t)
  {
    t := Apply(s, e);
    hide Enabled, Apply, Init;
    ReachesNext(Runner(), Init(max), s, e);
  }

  /** A reachable state of an open runner with nothing in its channel. */
  ghost predicate Demo(max: nat, s: State, pc: Pc, queue: seq<nat>, marks: set<nat>, dispatched: seq<Dispatch>,
                       count: int, pushes: nat)
  {
    && From(max, s) && s.maxConcurrency == max && s.work == [] && s.pendingBarrierTask.None?
    && !s.barrierTaskRunning && !s.closed
    && s.pc == pc && s.queue == queue && s.barrierTaskIDs == marks && s.dispatched == dispatched
    && s.runningCount == count && s.pushes == pushes
  }

  lemma FlushArrives(max: nat) returns (s: State)
    requires max >= 2
    ensures Demo(max, s, PushBarrier, [], {}, [], 0, 0)
  {
    s := Init(max);
    ReachesItself(Runner(), s);
    hide From;
    s := NextFrom(max, s, SendFlush);
    s := NextFrom(max, s, Take);
    s := NextFrom(max, s, Go);
  }

  lemma FlushReachesGate(max: nat) returns (s: State)
    requires max >= 2
    ensures Demo(max, s, Gate, [0], {0}, [], 0, 1)
  {
    hide From;
    s := FlushArrives(max);
    s := NextFrom(max, s, Go);
    s := NextFrom(max, s, Go);
  }

  lemma GateReachesPop(max: nat, s0: State, queue: seq<nat>, marks: set<nat>, ds: seq<Dispatch>, count: nat,
          pushes: nat)
    returns (s: State)
    requires Demo(max, s0, Gate, queue, marks, ds, count, pushes) && queue != [] && count < max
    ensures Demo(max, s, LoopPop, queue, marks, ds, count, pushes)
  {
    hide From;
    s := NextFrom(max, s0, Go);
    s := NextFrom(max, s, Go);
    s := NextFrom(max, s, Go);
  }

  lemma FlushIsPopped(max: nat) returns (s: State)
    requires max >= 2
    ensures Demo(max, s, BarrierLoad(0), [], {}, [], 0, 1)
  {
    hide From;
    s := FlushReachesGate(max);
    s := GateReachesPop(max, s, [0], {0}, [], 0, 1);
    s := NextFrom(max, s, Go);
    assert s.queue == [] && s.barrierTaskIDs == {};
  }

  /** FlushAsync on an idle runner: the barrier goes to the pool at once, the flag stays clear. */
  lemma FlushOnIdleRunner(max: nat) returns (s: State)
    requires max >= 2
    ensures Demo(max, s, Idle, [], {}, [Dispatch(0, Immediate, InPool)], 1, 1)
  {
    hide From;
    s := FlushIsPopped(max);
    s := NextFrom(max, s, Go);
    s := NextFrom(max, s, Go);
    s := NextFrom(max, s, Go);
  }

  lemma PostReachesGate(max: nat, s0: State) returns (s: State)
    requires max >= 2
    requires Demo(max, s0, Idle, [], {}, [Dispatch(0, Immediate, InPool)], 1, 1)
    ensures Demo(max, s, Gate, [1], {}, [Dispatch(0, Immediate, InPool)], 1, 2)
  {
    hide From;
    s := NextFrom(max, s0, SendPost);
    s := NextFrom(max, s, Take);
    s := NextFrom(max, s, Go);
    s := NextFrom(max, s, Go);
  }

  lemma PostBesideBarrier(max: nat, s0: State) returns (s: State)
    requires max >= 2
    requires Demo(max, s0, Idle, [], {}, [Dispatch(0, Immediate, InPool)], 1, 1)
    ensures Demo(max, s, LoopLoad, [], {}, [Dispatch(0, Immediate, InPool), Dispatch(1, Normal, InPool)], 2, 2)
  {
    hide From;
    s := PostReachesGate(max, s0);
    s := GateReachesPop(max, s, [1], {}, [Dispatch(0, Immediate, InPool)], 1, 2);
    s := NextFrom(max, s, Go);
    assert s.pc == NormalAdd(1) && s.queue == [];
    s := NextFrom(max, s, Go);
    s := NextFrom(max, s, Go);
  }

  /** Whatever the number of slots above one: a run on which a task posted after
      FlushAsync runs although the callback has not begun. */
  lemma LaterTaskCanOvertakeFlush(max: nat)
    requires max >= 2
    ensures exists s: State ::
              From(max, s) && s.dispatched == [Dispatch(0, Immediate, InPool), Dispatch(1, Normal, Body)]
  {
    hide From;
    var s0 := FlushOnIdleRunner(max);
    var s1 := PostBesideBarrier(max, s0);
    var s2 := NextFrom(max, s1, BodyStart(1));
    assert s2.dispatched == [Dispatch(0, Immediate, InPool), Dispatch(1, Normal, Body)];
  }

  // ----- the runner itself -----

  lemma Next(s: State, e: Event) returns (t: State)
    requires Reachable(s) && Enabled(s, e)
    ensures t == Apply(s, e) && Reachable(t)
  {
    t := Apply(s, e);
    hide Enabled, Apply, Init;
    var max: nat :| max >= 1 && Runner().Reaches(Init(max), s);
    ReachesNext(Runner(), Init(max), s, e);
  }

  lemma PushBarrierApplies(s: State)
    requires s.pc.PushBarrier?
    ensures GoStep(s) == s.(queue := s.queue + [s.pushes], line := s.line + [s.pushes], pushes := s.pushes + 1,
                            barriers := s.barriers + {s.pushes}, pc := MarkBarrier(s.pushes))
  {
  }

  lemma ClearApplies(s: State)
    requires Enabled(s, ClearQueue)
    ensures Apply(s, ClearQueue)
            == s.(queue := [], cleared := true, dropped := s.dropped + (set x | x in s.queue),
                  line := s.line[..|s.line| - (if |s.queue| <= |s.line| then |s.queue| else 0)])
  {
  }

  lemma PendingApplies(s: State)
    requires s.pc.PendingLoad?
    ensures GoStep(s) ==
            if s.runningCount == 0 && s.pendingBarrierTask.Some? then
              s.(barrierTaskIDs := s.barrierTaskIDs - {s.pendingBarrierTask.value}, pendingBarrierTask := None,
                 barrierTaskRunning := true, pc := PendingAdd(s.pendingBarrierTask.value))
            else s.(pc := Idle)
  {
  }

  class ParallelTaskRunner {
    const maxConcurrency: nat
    var work: seq<Closure>                // the internal runner's channel
    var pc: Pc                            // where its goroutine stands
    var queue: seq<nat>
    var barrierTaskIDs: set<nat>
    var pendingBarrierTask: Option<nat>
    var barrierTaskRunning: bool
    var runningCount: int
    var closed: bool
    var cleared: bool
    var schedulerClosed: bool
    var dispatched: seq<Dispatch>         // the runLoop closures given to the pool
    var nextID: nat
    ghost var barriers: set<nat>
    ghost var dropped: set<nat>
    ghost var line: seq<nat>
    ghost var sends: seq<bool>
    ghost var ran: seq<nat>

    ghost function Snapshot(): State
      reads this
    {
      State(maxConcurrency, work, pc, queue, barrierTaskIDs, pendingBarrierTask, barrierTaskRunning, runningCount,
            closed, cleared, schedulerClosed, dispatched, nextID, barriers, dropped, line, sends, ran)
    }

    /** The fields are those of a reachable state, so everything above holds of them. */
    ghost predicate Valid()
      reads this
    {
      Reachable(Snapshot())
    }

    constructor (max: nat)
      requires max >= 1
      ensures Valid() && Snapshot() == Init(max)
    {
      maxConcurrency := max;
      work, pc, queue, barrierTaskIDs, pendingBarrierTask, barrierTaskRunning := [], Idle, [], {}, None, false;
      runningCount, closed, cleared, schedulerClosed, dispatched, nextID := 0, false, false, false, [], 0;
      barriers, dropped, line, sends, ran := {}, {}, [], [], [];
      new;
      ReachesItself(Runner(), Init(max));
    }

    /** PostTaskWithTraitsNamed posts its closure to the internal runner. */
    method PostTask()
      requires Valid() && |work| < CHANNEL_CAPACITY
      modifies this
      ensures Valid() && Snapshot() == Apply(old(Snapshot()), SendPost)
    {
      hide Reachable, GoStep, WorkerStep;
      ghost var t := Next(Snapshot(), SendPost);
      work, sends := work + [PostC], sends + [false];
    }

    /** So do WaitIdle and FlushAsync. */
    method PostBarrier()
      requires Valid() && |work| < CHANNEL_CAPACITY
      modifies this
      ensures Valid() && Snapshot() == Apply(old(Snapshot()), SendFlush)
    {
      hide Reachable, GoStep, WorkerStep;
      ghost var t := Next(Snapshot(), SendFlush);
      work, sends := work + [FlushC], sends + [true];
    }

    method TakeClosure()
      requires Valid() && pc == Idle && work != []
      modifies this
      ensures Valid() && Snapshot() == Apply(old(Snapshot()), Event.Take)
    {
      hide Reachable, GoStep, WorkerStep;
      ghost var t := Next(Snapshot(), Event.Take);
      var c := work[0];
      work := work[1..];
      match c {
        case PostC => pc := PostCheck;
        case FlushC => pc := FlushCheck;
        case CompleteC(_) => pc := Gate;
        case ResetC(d) => pc := ResetStore(d);
      }
    }

    /** The closures' first check. */
    method CheckClosed()
      requires Valid() && (pc.PostCheck? || pc.FlushCheck?)
      modifies this
      ensures Valid() && Snapshot() == Apply(old(Snapshot()), Go)
    {
      hide Reachable, WorkerStep, OuterStep, GateStep, LoopStep, HandStep;
      ghost var t := Next(Snapshot(), Go);
      if closed {
        pc := Idle;
      } else if pc.PostCheck? {
        pc := PushTask;
      } else {
        pc := PushBarrier;
      }
    }

    method Push()
      requires Valid() && pc.PushTask?
      modifies this
      ensures Valid() && Snapshot() == Apply(old(Snapshot()), Go)
    {
      hide Reachable, WorkerStep, OuterStep, GateStep, LoopStep, HandStep;
      ghost var t := Next(Snapshot(), Go);
      queue, line, nextID := queue + [nextID], line + [nextID], nextID + 1;
      pc := Gate;
    }

    method PushWithID()
      requires Valid() && pc.PushBarrier?
      modifies this
      ensures Valid() && Snapshot() == Apply(old(Snapshot()), Go)
    {
      hide Reachable, WorkerStep, OuterStep, GoStep;
      ghost var t := Next(Snapshot(), Go);
      PushBarrierApplies(Snapshot());
      var id := nextID;
      queue, line, nextID := queue + [id], line + [id], id + 1;
      barriers := barriers + {id};
      pc := MarkBarrier(id);
    }

    method MarkAsBarrier()
      requires Valid() && pc.MarkBarrier?
      modifies this
      ensures Valid() && Snapshot() == Apply(old(Snapshot()), Go)
    {
      hide Reachable, WorkerStep, OuterStep, GateStep, LoopStep, HandStep;
      ghost var t := Next(Snapshot(), Go);
      barrierTaskIDs := barrierTaskIDs + {pc.id};
      pc := Gate;
    }

    /** The head of tryScheduleInternal. */
    method LoadBarrierRunning()
      requires Valid() && pc.Gate?
      modifies this
      ensures Valid() && Snapshot() == Apply(old(Snapshot()), Go)
    {
      hide Reachable, WorkerStep, OuterStep, EntryStep, LoopStep, HandStep;
      ghost var t := Next(Snapshot(), Go);
      if barrierTaskRunning {
        pc := Idle;
      } else if pendingBarrierTask.Some? {
        pc := PendingLoad;
      } else {
        pc := LoopLoad;
      }
    }

    /** A pending barrier goes out once runningCount is 0: postBarrierTaskInternal up to its store. */
    method TryPendingBarrier()
      requires Valid() && pc.PendingLoad?
      modifies this
      ensures Valid() && Snapshot() == Apply(old(Snapshot()), Go)
    {
      hide Reachable, WorkerStep, OuterStep, GoStep;
      ghost var t := Next(Snapshot(), Go);
      PendingApplies(Snapshot());
      if runningCount == 0 && pendingBarrierTask.Some? {
        var id := pendingBarrierTask.value;
        barrierTaskIDs := barrierTaskIDs - {id};
        pendingBarrierTask := None;
        barrierTaskRunning := true;
        pc := PendingAdd(id);
      } else {
        pc := Idle;
      }
    }

    /** The three places that add one before handing an item to the pool. */
    method AddRunning()
      requires Valid() && (pc.PendingAdd? || pc.ImmediateAdd? || pc.NormalAdd?)
      modifies this
      ensures Valid() && Snapshot() == Apply(old(Snapshot()), Go)
    {
      hide Reachable, WorkerStep, OuterStep;
      ghost var t := Next(Snapshot(), Go);
      var kind := if pc.PendingAdd? then Pending else if pc.ImmediateAdd? then Immediate else Normal;
      runningCount := runningCount + 1;
      pc := Hand(pc.id, kind);
    }

    /** The dispatch loop's condition, */
    method LoadRunning()
      requires Valid() && pc.LoopLoad?
      modifies this
      ensures Valid() && Snapshot() == Apply(old(Snapshot()), Go)
    {
      hide Reachable, WorkerStep, OuterStep, EntryStep, GateStep, HandStep;
      ghost var t := Next(Snapshot(), Go);
      if runningCount < maxConcurrency {
        pc := LoopEmpty;
      } else {
        pc := Idle;
      }
    }

    /** its test for an empty queue, */
    method TestEmpty()
      requires Valid() && pc.LoopEmpty?
      modifies this
      ensures Valid() && Snapshot() == Apply(old(Snapshot()), Go)
    {
      hide Reachable, WorkerStep, OuterStep, EntryStep, GateStep, HandStep;
      ghost var t := Next(Snapshot(), Go);
      if |queue| == 0 && pendingBarrierTask.None? {
        pc := Idle;
      } else {
        pc := LoopPop;
      }
    }

    /** its pop, with isBarrierTaskID and removeBarrier, */
    method PopItem()
      requires Valid() && pc.LoopPop?
      modifies this
      ensures Valid() && Snapshot() == Apply(old(Snapshot()), Go)
    {
      hide Reachable, WorkerStep, OuterStep, EntryStep, GateStep, HandStep;
      ghost var t := Next(Snapshot(), Go);
      if |queue| == 0 {
        pc := Idle;
      } else {
        var id := queue[0];
        queue := queue[1..];
        if id in barrierTaskIDs {
          barrierTaskIDs := barrierTaskIDs - {id};
          pc := BarrierLoad(id);
        } else {
          pc := NormalAdd(id);
        }
      }
    }

    /** and a popped barrier: immediate or pending. */
    method PlaceBarrier()
      requires Valid() && pc.BarrierLoad?
      modifies this
      ensures Valid() && Snapshot() == Apply(old(Snapshot()), Go)
    {
      hide Reachable, WorkerStep, OuterStep, EntryStep, GateStep, HandStep;
      ghost var t := Next(Snapshot(), Go);
      if runningCount == 0 {
        pc := ImmediateAdd(pc.id);
      } else {
        pendingBarrierTask := Some(pc.id);
        pc := Idle;
      }
    }

    /** threadPool.PostInternal(runLoop(item)) */
    method HandToPool()
      requires Valid() && pc.Hand?
      modifies this
      ensures Valid() && Snapshot() == Apply(old(Snapshot()), Go)
    {
      hide Reachable, WorkerStep, OuterStep, EntryStep, GateStep, LoopStep;
      ghost var t := Next(Snapshot(), Go);
      dispatched := dispatched + [Dispatch(pc.id, pc.kind, InPool)];
      if pc.kind == Normal {
        pc := LoopLoad;
      } else {
        pc := Idle;
      }
    }

    /** The reset closure. */
    method StoreBarrierDone()
      requires Valid() && pc.ResetStore?
      modifies this
      ensures Valid() && Snapshot() == Apply(old(Snapshot()), Go)
    {
      hide Reachable, WorkerStep, OuterStep, EntryStep, LoopStep, HandStep;
      ghost var t := Next(Snapshot(), Go);
      barrierTaskRunning := false;
      pc := Idle;
    }

    /** A worker begins the body of dispatch d, */
    method BodyStarts(d: nat)
      requires Valid() && At(Snapshot(), d, InPool)
      modifies this
      ensures Valid() && Snapshot() == Apply(old(Snapshot()), BodyStart(d))
    {
      hide Reachable, GoStep, OuterStep;
      ghost var t := Next(Snapshot(), BodyStart(d));
      dispatched := dispatched[d := dispatched[d].(stage := Body)];
    }

    /** ends it, */
    method BodyEnds(d: nat)
      requires Valid() && At(Snapshot(), d, Body)
      modifies this
      ensures Valid() && Snapshot() == Apply(old(Snapshot()), BodyEnd(d))
    {
      hide Reachable, GoStep, OuterStep;
      ghost var t := Next(Snapshot(), BodyEnd(d));
      if dispatched[d].kind == Normal {
        dispatched := dispatched[d := dispatched[d].(stage := AddDue)];
      } else {
        dispatched := dispatched[d := dispatched[d].(stage := ResetDue)];
      }
      ran := ran + [d];
    }

    /** posts a barrier's reset closure, */
    method PostReset(d: nat, sent: bool)
      requires Valid() && At(Snapshot(), d, ResetDue) && CanSend(Snapshot(), sent)
      modifies this
      ensures Valid() && Snapshot() == Apply(old(Snapshot()), SendReset(d, sent))
    {
      hide Reachable, GoStep, OuterStep;
      ghost var t := Next(Snapshot(), SendReset(d, sent));
      dispatched := dispatched[d := dispatched[d].(stage := AddDue)];
      if sent {
        work := work + [ResetC(d)];
      }
    }

    /** and runs onTaskComplete: runningCount.Add(-1), */
    method DecrementRunning(d: nat)
      requires Valid() && At(Snapshot(), d, AddDue)
      modifies this
      ensures Valid() && Snapshot() == Apply(old(Snapshot()), Decrement(d))
    {
      hide Reachable, GoStep, OuterStep;
      ghost var t := Next(Snapshot(), Decrement(d));
      runningCount := runningCount - 1;
      dispatched := dispatched[d := dispatched[d].(stage := CompleteDue)];
    }

    /** then its own closure. */
    method PostCompletion(d: nat, sent: bool)
      requires Valid() && At(Snapshot(), d, CompleteDue) && CanSend(Snapshot(), sent)
      modifies this
      ensures Valid() && Snapshot() == Apply(old(Snapshot()), SendComplete(d, sent))
    {
      hide Reachable, GoStep, OuterStep;
      ghost var t := Next(Snapshot(), SendComplete(d, sent));
      dispatched := dispatched[d := dispatched[d].(stage := Done)];
      if sent {
        work := work + [CompleteC(d)];
      }
    }

    /** Shutdown's store, */
    method MarkClosed()
      requires Valid() && !closed
      modifies this
      ensures Valid() && Snapshot() == Apply(old(Snapshot()), CloseRunner)
    {
      hide Reachable, GoStep, WorkerStep;
      ghost var t := Next(Snapshot(), CloseRunner);
      closed := true;
    }

    /** its queue.Clear, */
    method ClearTasks()
      requires Valid() && closed && !cleared
      modifies this
      ensures Valid() && Snapshot() == Apply(old(Snapshot()), ClearQueue)
    {
      hide Reachable, Apply;
      ghost var t := Next(Snapshot(), ClearQueue);
      ClearApplies(Snapshot());
      dropped := dropped + (set x | x in queue);
      line := line[..|line| - (if |queue| <= |line| then |queue| else 0)];
      queue, cleared := [], true;
    }

    /** and its shutdown of the internal runner. */
    method CloseInternalRunner()
      requires Valid() && cleared && !schedulerClosed
      modifies this
      ensures Valid() && Snapshot() == Apply(old(Snapshot()), CloseScheduler)
    {
      hide Reachable, GoStep, WorkerStep;
      ghost var t := Next(Snapshot(), CloseScheduler);
      schedulerClosed := true;
    }
  }
}
