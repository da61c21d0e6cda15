/** What a caller of the ParallelTaskRunner may rely on (core/parallel_task_runner.go):
    the dispatch loop fills its slots, every item sent to an open runner runs once,
    and what closing the runner and clearing its queue do to the rest. */
module ParallelCalls {
  import opened Counting
  import opened Runs
  import opened FifoRunner
  import opened ParallelRunner

  /** t is the state after event e at s. */
  ghost predicate Took(s: State, e: Event, t: State) { Enabled(s, e) && t == Apply(s, e) }

  lemma LaterInv(s: State, t: State)
    requires Reachable(s) && Runner().Reaches(s, t)
    ensures Reachable(t) && Inv(t)
  {
    hide Inv, Init, Enabled, Apply;
    var max: nat :| max >= 1 && Runner().Reaches(Init(max), s);
    ReachesFurther(Runner(), Init(max), s, t);
    ReachableInv(t);
  }

  // ----- the dispatch loop fills its slots -----

  /** The dispatches whose completion closure is still to run. */
  ghost function Owed(s: State): set<nat> { set d: nat | d < |s.dispatched| && Unsettled(s, d) }

  /** Items are queued, and no barrier is in their way. */
  ghost predicate CouldGo(s: State)
  {
    s.queue != [] && s.pendingBarrierTask.None? && forall d :: IsBarrier(s, d) ==> !Unsettled(s, d)
  }

  ghost predicate FullInv(s: State)
  {
    !s.closed && (s.pc.Idle? || s.pc.ResetStore?) && CouldGo(s) ==> |Owed(s)| >= s.maxConcurrency
  }

  lemma {:induction false} CountedAreOwed(s: State, n: nat)
    requires n <= |s.dispatched|
    ensures |set d: nat | d < n && Unsettled(s, d)| >= Sum(s.dispatched[..n], Counted)
  {
    hide Sum;
    if n == 0 {
      SumZero(s.dispatched[..0], Counted);
    } else {
      CountedAreOwed(s, n - 1);
      assert s.dispatched[..n] == s.dispatched[..n - 1] + [s.dispatched[n - 1]];
      SumAppend(s.dispatched[..n - 1], s.dispatched[n - 1], Counted);
      var fewer, more := set d: nat | d < n - 1 && Unsettled(s, d), set d: nat | d < n && Unsettled(s, d);
      assert more == if Unsettled(s, n - 1) then fewer + {n - 1} else fewer;
    }
  }

  lemma RunningAreOwed(s: State)
    requires CountInv(s) && !s.pc.Hand?
    ensures |Owed(s)| >= s.runningCount
  {
    CountedAreOwed(s, |s.dispatched|);
    assert s.dispatched[..|s.dispatched|] == s.dispatched;
  }

  /** The same dispatches are owed, and what could go could go before. */
  ghost predicate SameOwed(s: State, t: State)
  {
    && t.maxConcurrency == s.maxConcurrency && (s.closed ==> t.closed) && t.queue == s.queue
    && t.pendingBarrierTask == s.pendingBarrierTask
    && (forall d :: Unsettled(t, d) <==> Unsettled(s, d)) && (forall d :: IsBarrier(t, d) <==> IsBarrier(s, d))
  }

  lemma SameOwedKeepsFull(s: State, t: State)
    requires FullInv(s) && SameOwed(s, t) && (s.pc.Idle? || s.pc.ResetStore?)
    ensures FullInv(t)
  {
    forall d | d in Owed(s) ensures d in Owed(t) {
      assert Unsettled(t, d);
    }
    forall d | d in Owed(t) ensures d in Owed(s) {
      assert Unsettled(s, d);
    }
    assert Owed(s) == Owed(t);
    if CouldGo(t) {
      assert CouldGo(s);
    }
  }

  lemma WorkerKeepsOwed(s: State, e: Event)
    requires WorkerEvent(e) && Enabled(s, e) && (e.SendComplete? ==> e.sent)
    ensures SameOwed(s, WorkerStep(s, e))
  {
  }

  lemma SendKeepsOwed(s: State, e: Event)
    requires Enabled(s, e) && (e.SendPost? || e.SendFlush?)
    ensures SameOwed(s, OuterStep(s, e))
  {
  }

  lemma TakeKeepsOwed(s: State)
    requires Enabled(s, Take) && s.work[0].ResetC?
    ensures SameOwed(s, OuterStep(s, Take))
  {
    assert s.work == [s.work[0]] + s.work[1..];
  }

  lemma OuterKeepsFull(s: State, e: Event)
    requires FullInv(s) && GateInv(s) && Enabled(s, e) && !e.Go? && !WorkerEvent(e)
    ensures FullInv(OuterStep(s, e))
  {
    if e.Take? {
      if s.work[0].ResetC? {
        TakeKeepsOwed(s);
        SameOwedKeepsFull(s, OuterStep(s, e));
      }
    } else if e.SendPost? || e.SendFlush? {
      SendKeepsOwed(s, e);
      if s.pc.Idle? || s.pc.ResetStore? {
        SameOwedKeepsFull(s, OuterStep(s, e));
      }
    } else {
      assert OuterStep(s, e).closed;
    }
  }

  lemma WorkerKeepsFull(s: State, e: Event)
    requires FullInv(s) && GateInv(s) && Enabled(s, e) && WorkerEvent(e)
    ensures FullInv(WorkerStep(s, e))
  {
    if s.closed {
      WorkerFrame(s, e);
    } else {
      WorkerKeepsOwed(s, e);
      WorkerFrame(s, e);
      if s.pc.Idle? || s.pc.ResetStore? {
        SameOwedKeepsFull(s, WorkerStep(s, e));
      }
    }
  }

  /** The goroutine leaves the loop with an item that could go only when runningCount
      has reached maxConcurrency. */
  lemma GoKeepsFull(s: State)
    requires Inv(s) && FullInv(s) && s.pc != Idle
    ensures FullInv(GoStep(s))
  {
    var t := GoStep(s);
    GoFrame(s);
    if !t.closed && t.pc.Idle? && CouldGo(t) {
      if s.pc.ResetStore? {
        assert SameOwed(s, t);
        SameOwedKeepsFull(s, t);
      } else if s.pc.Hand? {
        assert IsBarrier(t, |s.dispatched|) && Unsettled(t, |s.dispatched|);
      } else if s.pc.Gate? {
        var d :| ResetPending(s, d);
        PendingResetReports(s, d);
        assert IsBarrier(t, d) && Unsettled(t, d);
      } else {
        assert s.runningCount >= s.maxConcurrency && t.maxConcurrency == s.maxConcurrency;
        RunningAreOwed(s);
        assert Owed(t) == Owed(s);
      }
    }
  }

  lemma StepKeepsFull(s: State, e: Event)
    requires Inv(s) && FullInv(s) && Enabled(s, e)
    ensures FullInv(Apply(s, e))
  {
    hide Inv, FullInv, GoStep, WorkerStep, OuterStep;
    if e.Go? { GoKeepsFull(s); }
    else {
      GateOf(s);
      if WorkerEvent(e) { WorkerKeepsFull(s, e); } else { OuterKeepsFull(s, e); }
    }
  }

  lemma GateOf(s: State)
    requires Inv(s)
    ensures GateInv(s)
  {
  }

  ghost predicate InvAndFull(s: State) { Inv(s) && FullInv(s) }

  lemma ReachableFull(s: State)
    requires Reachable(s)
    ensures InvAndFull(s)
  {
    var max: nat :| max >= 1 && Runner().Reaches(Init(max), s);
    InitInv(max);
    assert InvAndFull(Init(max));
    hide Inv, FullInv, Enabled, Apply, Init;
    forall s, e | InvAndFull(s) && Enabled(s, e) ensures InvAndFull(Apply(s, e)) {
      StepKeepsInv(s, e);
      StepKeepsFull(s, e);
    }
    InvariantReached(Runner(), s => InvAndFull(s), Init(max), s);
  }

  /** The dispatch loop wastes no slot: whenever the goroutine of an open runner is
      between closures with items queued, and no barrier is pending or dispatched with
      its completion closure still to run, as many dispatches as there are slots have
      theirs still to run, and each of them will bring the goroutine back to the loop. */
  lemma FillsItsSlots(s: State)
    requires Reachable(s) && !s.closed && s.pc == Idle && s.queue != [] && s.pendingBarrierTask.None?
    requires forall d :: IsBarrier(s, d) ==> !Unsettled(s, d)
    ensures |Owed(s)| >= s.maxConcurrency
    ensures forall d :: d in Owed(s) ==> d < |s.dispatched| && (s.dispatched[d].stage != Done || CompleteC(d) in s.work)
  {
    hide Reachable, Inv;
    ReachableFull(s);
    assert CouldGo(s);
  }

  // ----- what was sent is what is pushed -----

  /** The item of the closure the goroutine is in, if it is still to be pushed. */
  function EntryKinds(pc: Pc): seq<bool>
  {
    if pc.PostCheck? || pc.PushTask? then [false] else if pc.FlushCheck? || pc.PushBarrier? then [true] else []
  }

  /** The items of the client closures in the channel. */
  function ClientKinds(work: seq<Closure>): seq<bool>
  {
    if work == [] then []
    else (if work[0].PostC? then [false] else if work[0].FlushC? then [true] else []) + ClientKinds(work[1..])
  }

  function PushKinds(s: State): (ks: seq<bool>)
    ensures |ks| == s.pushes
  {
    seq(s.pushes, k requires 0 <= k => k in s.barriers)
  }

  lemma SameKinds(s: State, t: State)
    requires t.pushes == s.pushes && t.barriers == s.barriers
    ensures PushKinds(t) == PushKinds(s)
  {
  }

  /** Pushed, in hand and in the channel: as long as the runner is open nothing sent is
      lost; afterwards the pushes are still the first of the sends. */
  ghost predicate Sending(pushed: seq<bool>, entry: seq<bool>, ahead: seq<bool>, sends: seq<bool>, open: bool,
                          late: bool)
  {
    && (open ==> pushed + entry + ahead == sends)
    && (if late then pushed + entry <= sends else pushed <= sends)
  }

  ghost predicate SendInv(s: State)
  {
    Sending(PushKinds(s), EntryKinds(s.pc), ClientKinds(s.work), s.sends, !s.closed,
            s.pc.PushTask? || s.pc.PushBarrier?)
  }

  lemma SendMore(p: seq<bool>, e: seq<bool>, c: seq<bool>, sends: seq<bool>, open: bool, late: bool, k: seq<bool>)
    requires Sending(p, e, c, sends, open, late)
    ensures Sending(p, e, c + k, sends + k, open, late)
  {
    assert p + e + (c + k) == (p + e + c) + k;
  }

  lemma TakeIn(p: seq<bool>, e: seq<bool>, c: seq<bool>, sends: seq<bool>, open: bool)
    requires Sending(p, [], e + c, sends, open, false)
    ensures Sending(p, e, c, sends, open, false)
  {
    assert p + [] + (e + c) == p + e + c;
  }

  lemma PushIn(p: seq<bool>, e: seq<bool>, c: seq<bool>, sends: seq<bool>, open: bool)
    requires Sending(p, e, c, sends, open, true)
    ensures Sending(p + e, [], c, sends, open, false)
  {
    assert (p + e) + [] + c == p + e + c;
  }

  lemma {:induction false} KindsAppend(work: seq<Closure>, c: Closure)
    ensures ClientKinds(work + [c]) == ClientKinds(work) + ClientKinds([c])
  {
    if work == [] {
      assert work + [c] == [c];
    } else {
      assert (work + [c])[1..] == work[1..] + [c];
      KindsAppend(work[1..], c);
    }
  }

  lemma TakeKeepsSends(s: State)
    requires SendInv(s) && Enabled(s, Take)
    ensures SendInv(OuterStep(s, Take))
  {
    var t, entry := OuterStep(s, Take), EntryKinds(AfterTake(s.work[0]));
    assert ClientKinds(s.work) == entry + ClientKinds(s.work[1..]);
    SameKinds(s, t);
    hide PushKinds, ClientKinds, Sending;
    TakeIn(PushKinds(s), entry, ClientKinds(t.work), s.sends, !s.closed);
  }

  lemma ClientKeepsSends(s: State, e: Event)
    requires SendInv(s) && Enabled(s, e) && (e.SendPost? || e.SendFlush?)
    ensures SendInv(OuterStep(s, e))
  {
    var t, c := OuterStep(s, e), if e.SendPost? then PostC else FlushC;
    KindsAppend(s.work, c);
    SameKinds(s, t);
    assert t.sends == s.sends + ClientKinds([c]) && t.work == s.work + [c];
    hide PushKinds, ClientKinds, EntryKinds, Sending;
    SendMore(PushKinds(s), EntryKinds(s.pc), ClientKinds(s.work), s.sends, !s.closed,
             s.pc.PushTask? || s.pc.PushBarrier?, ClientKinds([c]));
  }

  lemma WorkerAddsNoKind(s: State, e: Event)
    requires Enabled(s, e) && WorkerEvent(e)
    ensures ClientKinds(WorkerStep(s, e).work) == ClientKinds(s.work)
  {
    if e.SendReset? { KindsAppend(s.work, ResetC(e.d)); }
    if e.SendComplete? { KindsAppend(s.work, CompleteC(e.d)); }
  }

  lemma WorkerKeepsSends(s: State, e: Event)
    requires SendInv(s) && Enabled(s, e) && WorkerEvent(e)
    ensures SendInv(WorkerStep(s, e))
  {
    var t := WorkerStep(s, e);
    WorkerFrame(s, e);
    WorkerAddsNoKind(s, e);
    SameKinds(s, t);
    hide PushKinds, ClientKinds, Sending, WorkerStep;
  }

  lemma EntryKeepsSends(s: State)
    requires SendInv(s) && AtEntry(s.pc) && forall x :: x in s.barriers ==> x < s.pushes
    ensures SendInv(EntryStep(s))
  {
    if s.pc.PushTask? || s.pc.PushBarrier? {
      PushKeepsSends(s);
    } else {
      assert PushKinds(EntryStep(s)) == PushKinds(s);
    }
  }

  lemma PushKeepsSends(s: State)
    requires SendInv(s) && (s.pc.PushTask? || s.pc.PushBarrier?) && forall x :: x in s.barriers ==> x < s.pushes
    ensures SendInv(EntryStep(s))
  {
    var t := EntryStep(s);
    PushAddsKind(s);
    hide PushKinds, ClientKinds, Sending;
    PushIn(PushKinds(s), EntryKinds(s.pc), ClientKinds(s.work), s.sends, !s.closed);
  }

  lemma PushAddsKind(s: State)
    requires (s.pc.PushTask? || s.pc.PushBarrier?) && forall x :: x in s.barriers ==> x < s.pushes
    ensures PushKinds(EntryStep(s)) == PushKinds(s) + EntryKinds(s.pc)
  {
  }

  /** Past its entry the goroutine leaves pushes, sends and bodies alone. */
  predicate SamePushes(s: State, t: State)
  {
    && t.pushes == s.pushes && t.barriers == s.barriers && t.sends == s.sends && t.work == s.work
    && t.closed == s.closed && t.cleared == s.cleared && t.dropped == s.dropped && t.line == s.line && t.ran == s.ran
    && EntryKinds(t.pc) == EntryKinds(s.pc) == []
  }

  lemma GateLeavesPushes(s: State)
    requires AtGate(s.pc)
    ensures SamePushes(s, GateStep(s))
  {
  }

  lemma LoopAloneLeavesPushes(s: State)
    requires AtLoop(s.pc)
    ensures SamePushes(s, LoopStep(s))
  {
    if s.pc.LoopPop? { PopLeavesPushes(s); } else { TestsLeavePushes(s); }
  }

  lemma PopLeavesPushes(s: State)
    requires s.pc.LoopPop?
    ensures SamePushes(s, LoopStep(s))
  {
    var t := LoopStep(s);
    assert t.(pc := s.pc, queue := s.queue, barrierTaskIDs := s.barrierTaskIDs) == s;
    assert !AtEntry(t.pc);
    hide LoopStep;
  }

  lemma TestsLeavePushes(s: State)
    requires AtLoop(s.pc) && !s.pc.LoopPop?
    ensures SamePushes(s, LoopStep(s))
  {
    var t := LoopStep(s);
    assert t.(pc := s.pc, runningCount := s.runningCount, pendingBarrierTask := s.pendingBarrierTask) == s;
    assert !AtEntry(t.pc);
    hide LoopStep;
  }

  lemma LoopLeavesPushes(s: State)
    requires s.pc != Idle && !AtEntry(s.pc)
    ensures SamePushes(s, GoStep(s))
  {
    hide GateStep, LoopStep;
    if AtGate(s.pc) { GateLeavesPushes(s); } else if AtLoop(s.pc) { LoopAloneLeavesPushes(s); }
  }

  lemma OuterLeavesPushes(s: State, e: Event)
    requires GateInv(s) && Enabled(s, e) && (e.CloseRunner? || e.ClearQueue? || e.CloseScheduler?)
    ensures var t := OuterStep(s, e);
            && t.pushes == s.pushes && t.barriers == s.barriers && t.sends == s.sends && t.work == s.work
            && t.pc == s.pc && t.closed && t.ran == s.ran
  {
  }

  lemma StepKeepsSends(s: State, e: Event)
    requires Inv(s) && SendInv(s) && Enabled(s, e)
    ensures SendInv(Apply(s, e))
  {
    hide GoStep, WorkerStep, OuterStep, EntryStep;
    if e.Go? {
      if AtEntry(s.pc) {
        GoEnters(s);
        EntryKeepsSends(s);
      } else {
        LoopLeavesPushes(s);
        SameKinds(s, GoStep(s));
      }
    }
    else if WorkerEvent(e) { WorkerKeepsSends(s, e); }
    else if e.Take? { TakeKeepsSends(s); }
    else if e.SendPost? || e.SendFlush? { ClientKeepsSends(s, e); }
    else {
      OuterLeavesPushes(s, e);
      SameKinds(s, OuterStep(s, e));
    }
  }

  lemma GoEnters(s: State)
    requires AtEntry(s.pc)
    ensures GoStep(s) == EntryStep(s)
  {
  }

  // ----- each dispatched body runs once -----

  /** The body has been run. */
  predicate HasRun(x: Dispatch) { x.stage != InPool && x.stage != Body }

  ghost predicate RanInv(s: State)
  {
    && (forall d :: 0 <= d < |s.dispatched| ==> (d in s.ran <==> HasRun(s.dispatched[d])))
    && (forall k :: 0 <= k < |s.ran| ==> s.ran[k] < |s.dispatched|)
    && (forall j, k :: 0 <= j < k < |s.ran| ==> s.ran[j] != s.ran[k])
  }

  lemma StepKeepsRan(s: State, e: Event)
    requires RanInv(s) && Enabled(s, e)
    ensures RanInv(Apply(s, e))
  {
    hide GoStep, WorkerStep, OuterStep;
    if e.Go? { GoKeepsRan(s); }
    else if WorkerEvent(e) { WorkerKeepsRan(s, e); }
    else { OuterLeavesRan(s, e); }
  }

  lemma GoKeepsRan(s: State)
    requires RanInv(s) && s.pc != Idle
    ensures RanInv(GoStep(s))
  {
    GoFrame(s);
    GoLeavesRan(s);
    hide GoStep;
    assert |s.dispatched| !in s.ran;
  }

  lemma GoLeavesRan(s: State)
    requires s.pc != Idle
    ensures GoStep(s).ran == s.ran
  {
    if !AtEntry(s.pc) {
      hide GoStep;
      LoopLeavesPushes(s);
    }
  }

  lemma WorkerKeepsRan(s: State, e: Event)
    requires RanInv(s) && WorkerEvent(e) && Enabled(s, e)
    ensures RanInv(WorkerStep(s, e))
  {
    var t := WorkerStep(s, e);
    WorkerFrame(s, e);
    assert t.ran == if e.BodyEnd? then s.ran + [e.d] else s.ran;
    assert HasRun(t.dispatched[e.d]) <==> HasRun(s.dispatched[e.d]) || e.BodyEnd?;
    hide WorkerStep;
    forall d | 0 <= d < |t.dispatched| ensures d in t.ran <==> HasRun(t.dispatched[d]) {
      assert d in t.ran <==> d in s.ran || (e.BodyEnd? && d == e.d);
    }
  }

  lemma OuterLeavesRan(s: State, e: Event)
    requires Enabled(s, e) && !e.Go? && !WorkerEvent(e)
    ensures OuterStep(s, e).ran == s.ran && OuterStep(s, e).dispatched == s.dispatched
  {
  }

  // ----- what Shutdown clears never runs -----

  ghost predicate DropInv(s: State)
  {
    && (forall i :: 0 <= i < |s.line| ==> s.line[i] !in s.dropped)
    && (forall x :: x in s.dropped ==> x < s.pushes)
    && (!s.cleared ==> s.dropped == {})
  }

  lemma StepKeepsDropped(s: State, e: Event)
    requires Inv(s) && DropInv(s) && Enabled(s, e)
    ensures DropInv(Apply(s, e)) && s.dropped <= Apply(s, e).dropped
  {
    hide GoStep, WorkerStep, OuterStep;
    if e.Go? { GoKeepsDropped(s); }
    else if e.ClearQueue? { ClearKeepsDropped(s); }
    else { OtherKeepsDropped(s, e); }
  }

  lemma GoKeepsDropped(s: State)
    requires DropInv(s) && s.pc != Idle
    ensures DropInv(GoStep(s)) && s.dropped <= GoStep(s).dropped
  {
    var t := GoStep(s);
    if AtEntry(s.pc) {
      assert t.line == s.line || t.line == s.line + [s.pushes];
    } else {
      LoopLeavesPushes(s);
      hide GoStep;
    }
  }

  lemma ClearKeepsDropped(s: State)
    requires Lined(s) && LineInv(s) && DropInv(s) && Enabled(s, ClearQueue)
    ensures var t := OuterStep(s, ClearQueue); DropInv(t) && s.dropped <= t.dropped
  {
    var t := OuterStep(s, ClearQueue);
    var k := |t.line|;
    forall i: nat | i < |s.queue| ensures s.queue[i] == s.line[k + i] && s.queue[i] < s.pushes {
    }
  }

  lemma OtherKeepsDropped(s: State, e: Event)
    requires DropInv(s) && Enabled(s, e) && !e.Go? && !e.ClearQueue?
    ensures DropInv(Apply(s, e)) && Apply(s, e).dropped == s.dropped
  {
    if WorkerEvent(e) {
      WorkerFrame(s, e);
      hide WorkerStep;
    }
  }

  // ----- every run -----

  ghost predicate Ledger(s: State) { Inv(s) && SendInv(s) && RanInv(s) && DropInv(s) }

  lemma StepKeepsLedger(s: State, e: Event)
    requires Ledger(s) && Enabled(s, e)
    ensures Ledger(Apply(s, e))
  {
    hide Inv, SendInv, RanInv, DropInv, Enabled, Apply;
    StepKeepsInv(s, e);
    StepKeepsSends(s, e);
    StepKeepsRan(s, e);
    StepKeepsDropped(s, e);
  }

  lemma InitSends(max: nat)
    ensures SendInv(Init(max))
  {
    assert PushKinds(Init(max)) == [];
  }

  lemma InitLedger(max: nat)
    requires max >= 1
    ensures Ledger(Init(max))
  {
    InitInv(max);
    hide Inv;
    InitSends(max);
    hide SendInv;
  }

  lemma ReachableLedger(s: State)
    requires Reachable(s)
    ensures Ledger(s)
  {
    hide Ledger, Enabled, Apply, Init;
    var max: nat :| max >= 1 && Runner().Reaches(Init(max), s);
    InitLedger(max);
    forall s, e | Ledger(s) && Enabled(s, e) ensures Ledger(Apply(s, e)) {
      StepKeepsLedger(s, e);
    }
    InvariantReached(Runner(), s => Ledger(s), Init(max), s);
  }

  /** Sends are recorded as clients make them, and only then. */
  lemma SendsAreTheSends(s: State, e: Event, t: State)
    requires Took(s, e, t)
    ensures t.sends == if e.SendPost? then s.sends + [false] else if e.SendFlush? then s.sends + [true] else s.sends
  {
    if WorkerEvent(e) {
      WorkerFrame(s, e);
      hide WorkerStep;
    } else if e.Go? && !AtEntry(s.pc) {
      LoopLeavesPushes(s);
      hide GoStep;
    }
  }

  /** The items pushed are the first of those sent, in the order sent, each a barrier
      exactly if it was sent as one; and while the runner is open the others are
      still on their way. */
  lemma PushesFollowSends(s: State, k: nat)
    requires Reachable(s) && k < s.pushes
    ensures s.pushes <= |s.sends| && (k in s.barriers <==> s.sends[k])
    ensures !s.closed ==> |s.sends| == s.pushes + |EntryKinds(s.pc)| + |ClientKinds(s.work)|
  {
    ReachableLedger(s);
    hide Inv;
    assert PushKinds(s) <= s.sends;
    assert PushKinds(s)[k] == s.sends[k];
  }

  /** Nothing skipped: the line of a runner that has cleared nothing is all its pushes. */
  lemma {:induction false} WholeLine(s: State, i: nat)
    requires LineInv(s) && s.dropped == {} && i < |s.line|
    ensures forall k :: 0 <= k <= i ==> s.line[k] == k
  {
    if i > 0 {
      WholeLine(s, i - 1);
      assert s.line[i - 1] < s.line[i];
    }
    var x := i;
    assert i <= s.line[i] < s.pushes;
    assert x in s.line;
    var j :| 0 <= j < |s.line| && s.line[j] == x;
    assert forall k :: i < k < |s.line| ==> s.line[i] < s.line[k];
  }

  lemma AllInLine(s: State)
    requires LineInv(s) && s.dropped == {}
    ensures |s.line| == s.pushes && forall k :: 0 <= k < |s.line| ==> s.line[k] == k
  {
    if s.line != [] {
      WholeLine(s, |s.line| - 1);
      assert s.line[|s.line| - 1] < s.pushes;
    }
    var n: nat := |s.line|;
    assert n !in s.line;
    assert n < s.pushes ==> n in s.line;
  }

  ghost predicate AtRest(s: State) { forall e :: Internal(e) ==> !Enabled(s, e) }

  lemma AllDone(s: State)
    requires AtRest(s) && !s.closed
    ensures s.pc == Idle && s.work == [] && forall d :: 0 <= d < |s.dispatched| ==> s.dispatched[d].stage == Done
  {
    assert !Enabled(s, Go) && !Enabled(s, Take);
    forall d | 0 <= d < |s.dispatched| ensures s.dispatched[d].stage == Done {
      assert !Enabled(s, BodyStart(d)) && !Enabled(s, BodyEnd(d)) && !Enabled(s, SendReset(d, true));
      assert !Enabled(s, Decrement(d)) && !Enabled(s, SendComplete(d, true));
    }
  }

  /** An open runner at rest has dispatched every item ever sent to it, in the order
      sent, barriers as barriers, and run its body exactly once. */
  lemma OpenRunnerRunsEveryItem(s: State)
    requires Reachable(s) && !s.closed && AtRest(s)
    ensures |s.dispatched| == |s.sends| == |s.ran|
    ensures forall d :: 0 <= d < |s.sends| ==>
              && s.dispatched[d].id == d && s.dispatched[d].stage == Done
              && (s.dispatched[d].kind != Normal <==> s.sends[d])
    ensures forall d :: 0 <= d < |s.sends| ==> d in s.ran
    ensures forall j, k :: 0 <= j < k < |s.ran| ==> s.ran[j] != s.ran[k]
  {
    AllDone(s);
    hide AtRest, Reachable;
    NeverStalls(s);
    ReachableLedger(s);
    AllInLine(s);
    assert PushKinds(s) == s.sends;
    AllRan(s);
    forall d | 0 <= d < |s.sends| ensures s.dispatched[d].kind != Normal <==> s.sends[d] {
      assert PushKinds(s)[d] == s.sends[d];
    }
  }

  lemma AllRan(s: State)
    requires RanInv(s) && forall d :: 0 <= d < |s.dispatched| ==> s.dispatched[d].stage == Done
    ensures |s.ran| == |s.dispatched| && forall d :: 0 <= d < |s.dispatched| ==> d in s.ran
  {
    var all := seq(|s.dispatched|, k requires 0 <= k => k);
    Rearranged(all, s.ran, s.ran);
  }

  // ----- closing and clearing -----

  function Late(pc: Pc): nat { if pc.PushTask? || pc.PushBarrier? then 1 else 0 }

  ghost predicate Shut(s: State, pushes: nat) { s.closed && s.pushes + Late(s.pc) <= pushes }

  lemma StaysShut(s: State, e: Event, pushes: nat)
    requires Shut(s, pushes) && Enabled(s, e)
    ensures Shut(Apply(s, e), pushes)
  {
    if WorkerEvent(e) {
      WorkerFrame(s, e);
      hide WorkerStep;
    } else if e.Go? && !AtEntry(s.pc) {
      LoopLeavesPushes(s);
      hide GoStep;
    }
  }

  /** Once the runner is closed nothing more is pushed, but for the closure that was
      past its check. */
  lemma ClosedRunnerTakesNothing(s: State, t: State, u: State)
    requires Took(s, CloseRunner, t) && Runner().Reaches(t, u)
    ensures u.pushes <= s.pushes + Late(s.pc)
  {
    var pushes := s.pushes + Late(s.pc);
    assert Shut(t, pushes);
    hide Enabled, Apply, Shut;
    forall u, e | Shut(u, pushes) && Enabled(u, e) ensures Shut(Apply(u, e), pushes) {
      StaysShut(u, e, pushes);
    }
    InvariantReached(Runner(), u => Shut(u, pushes), t, u);
    ShutMeans(u, pushes);
  }

  lemma ShutMeans(u: State, pushes: nat)
    requires Shut(u, pushes)
    ensures u.pushes <= pushes
  {
  }

  ghost predicate Gone(s: State, x: nat) { Ledger(s) && x in s.dropped }

  lemma StaysGone(s: State, e: Event, x: nat)
    requires Gone(s, x) && Enabled(s, e)
    ensures Gone(Apply(s, e), x)
  {
    hide Inv, SendInv, RanInv, DropInv, Enabled, Apply;
    StepKeepsLedger(s, e);
    StepKeepsDropped(s, e);
  }

  /** Shutdown's clear leaves nothing queued, and no item it took out is dispatched
      before or after. */
  lemma ClearedItemsNeverRun(s: State, t: State, u: State, x: nat)
    requires Reachable(s) && Took(s, ClearQueue, t) && Runner().Reaches(t, u) && x in s.queue
    ensures t.queue == [] && forall d :: 0 <= d < |u.dispatched| ==> u.dispatched[d].id != x
  {
    ReachableLedger(s);
    assert t.queue == [] && x in t.dropped;
    StepKeepsLedger(s, ClearQueue);
    assert Gone(t, x);
    hide Ledger, Gone, Enabled, Apply, Reachable;
    forall u, e | Gone(u, x) && Enabled(u, e) ensures Gone(Apply(u, e), x) {
      StaysGone(u, e, x);
    }
    InvariantReached(Runner(), u => Gone(u, x), t, u);
    GoneMeans(u, x);
  }

  lemma GoneMeans(u: State, x: nat)
    requires Gone(u, x)
    ensures forall d :: 0 <= d < |u.dispatched| ==> u.dispatched[d].id != x
  {
  }
}
