/** Shutdown comes back (job/job_manager.go): it is not left waiting for the control task
    that cancels the active jobs, and on a manager with nothing left it can return nil. */
module JobManagerClosing {
  import opened Runs
  import opened FifoRunner
  import opened JobManagers
  import opened JobManagerInvariant
  import opened JobManagerOutcomes
  import opened JobManagerRuns
  import opened JobManagerCalls
  import opened JobManagerHealthy

  /** What a step does to Shutdown's wait for its control task. */
  predicate ShutSide(s: State, e: Event, t: State)
  {
    && (s.shut.cancelsDone ==> t.shut.cancelsDone)
    && (t.shut.pc.AwaitCancels? ==> s.shut.pc.AwaitCancels? || e.PostCancelAll?)
    && (e.ControlStep? && s.controlPc.CancelEach? ==> t.shut.cancelsDone)
    && (e.ControlStep? && s.controlPc.CancelAllStart? ==> t.controlPc.CancelEach?)
  }

  lemma StepShutSide(s: State, e: Event)
    requires Enabled(s, e)
    ensures ShutSide(s, e, Apply(s, e))
  {
    hide ExecNext, ClientNext, RunnerNext, IoNext, SubmitNext, FinishNext, CancelOneNext, ExecEnabled,
         ClientEnabled, RunnerEnabled, ControlEnabled, IoEnabled, ShutSide;
    if IsExec(e) { ExecShutSide(s, e); }
    else if IsClient(e) { ClientShutSide(s, e); }
    else if IsShutdown(e) { ShutdownShutSide(s, e); }
    else if IsRunner(e) || e.CancelOne? { TurnShutSide(s, e); }
    else if e.RecoverJob? { RecoverShutSide(s, e); }
    else if e.IoStep? { IoShutSide(s, e); }
    else if Submitting(s.controlPc) { SubmitShutSide(s, e); }
    else {
      ChoiceIsFree(s, e.choice);
      FinishShutSide(s, e);
    }
  }

  lemma ExecShutSide(s: State, e: Event)
    requires IsExec(e) && ExecEnabled(s, e)
    ensures ShutSide(s, e, ExecNext(s, e))
  {
  }

  lemma ClientShutSide(s: State, e: Event)
    requires IsClient(e) && ClientEnabled(s, e)
    ensures ShutSide(s, e, ClientNext(s, e))
  {
  }

  lemma ShutdownShutSide(s: State, e: Event)
    requires IsShutdown(e) && ShutdownEnabled(s, e)
    ensures ShutSide(s, e, ShutdownNext(s, e))
  {
  }

  lemma TurnShutSide(s: State, e: Event)
    ensures IsRunner(e) && RunnerEnabled(s, e) ==> ShutSide(s, e, RunnerNext(s, e))
    ensures e.CancelOne? && s.controlPc.CancelEach? ==> ShutSide(s, e, CancelOneNext(s, e.id))
  {
  }

  lemma RecoverShutSide(s: State, e: Event)
    requires e.RecoverJob?
    ensures ShutSide(s, e, RecoverNext(s, e.id, e.found))
  {
  }

  lemma IoShutSide(s: State, e: Event)
    requires e.IoStep? && IoEnabled(s, e.outcome)
    ensures ShutSide(s, e, IoNext(s, e.outcome))
  {
    hide IoNext, IoEnabled;
    IoLeavesShut(s, e.outcome);
  }

  lemma SubmitShutSide(s: State, e: Event)
    requires e.ControlStep? && Submitting(s.controlPc) && ControlEnabled(s, e.choice)
    ensures ShutSide(s, e, SubmitNext(s, e.choice))
  {
    hide SubmitNext, ControlEnabled;
    SubmitLeavesShut(s, e.choice);
  }

  lemma FinishShutSide(s: State, e: Event)
    requires e.ControlStep? && !Submitting(s.controlPc) && ControlEnabled(s, true)
    ensures ShutSide(s, e, FinishNext(s))
  {
    hide RemoveNext, MarkNext, FinalPostNext;
    if s.controlPc.FinalLoad? { RemoveLeavesShut(s); }
    else if !Cancelling(s.controlPc) { FinalLeavesShut(s); }
  }

  /** Shutdown's control task waits with the runner or is at work. */
  predicate CancelsComing(s: State)
  {
    CancelAll in s.control.waiting || s.controlPc.CancelAllStart? || s.controlPc.CancelEach?
  }

  predicate AwaitInv(s: State) { s.shut.pc.AwaitCancels? ==> s.shut.cancelsDone || CancelsComing(s) }

  lemma StillComing(s: State, e: Event, t: State)
    requires ControlSide(s, e, t) && CancelAll in s.control.waiting
    ensures CancelAll in t.control.waiting || t.controlPc.CancelAllStart?
  {
    if e.ControlBegin? {
      assert s.control.waiting == [s.control.waiting[0]] + s.control.waiting[1..];
    } else if e.ExecReport? {
      assert t.control.waiting == s.control.waiting + [t.control.waiting[|s.control.waiting|]];
    }
  }

  lemma JustComing(s: State, e: Event, t: State)
    requires ControlSide(s, e, t) && e.PostCancelAll?
    ensures CancelAll in t.control.waiting
  {
    assert t.control.waiting[|s.control.waiting|] == CancelAll;
  }

  lemma StepKeepsAwait(s: State, e: Event)
    requires AwaitInv(s) && Enabled(s, e)
    ensures AwaitInv(Apply(s, e))
  {
    var t := Apply(s, e);
    StepShutSide(s, e);
    StepControlSide(s, e);
    if e.CancelOne? && s.controlPc.CancelEach? { StaysCancelling(s, e.id); }
    hide Apply, Enabled;
    if CancelAll in s.control.waiting { StillComing(s, e, t); }
    if e.PostCancelAll? { JustComing(s, e, t); }
    hide Joined;
  }

  lemma ReachableAwait(s: State)
    requires Reachable(s)
    ensures AwaitInv(s)
  {
    hide Enabled, Apply;
    var durable, maxRetries, store :| Manager().Reaches(Init(durable, maxRetries, store), s);
    assert AwaitInv(Init(durable, maxRetries, store));
    hide AwaitInv, Init;
    forall s, e | AwaitInv(s) && Enabled(s, e) ensures AwaitInv(Apply(s, e)) {
      StepKeepsAwait(s, e);
    }
    InvariantReached(Manager(), s => AwaitInv(s), Init(durable, maxRetries, store), s);
  }

  /** Once only clients and Shutdown can move, Shutdown is not left waiting for its
      control task: the cancellations are done and it can go on to poll. */
  lemma ShutdownIsNotLeftWaiting(s: State)
    requires Reachable(s) && Quiescent(s) && s.shut.pc.AwaitCancels?
    ensures s.shut.cancelsDone && Enabled(s, CancelsDone) && Apply(s, CancelsDone).shut.pc.Polling?
  {
    ReachableAwait(s);
    NothingLeftBehind(s);
    IdleControl(s);
    hide Reachable, Quiescent;
    ShutdownApplies(s, CancelsDone);
  }

  lemma IdleControl(s: State)
    requires Reachable(s) && s.control.Idle()
    ensures s.controlPc.NoControl?
  {
    ReachableInv(s);
    hide ActiveInv, NewestInv, JobInv, FinalizeInv, RequestInv, IoInv, LogInv, WriteInv, RecordInv, ReplyInv,
         PendingInv, Reachable;
  }

  lemma OneStep(s: State, t: State, e: Event, u: State)
    requires Manager().Reaches(s, t) && IsShutdown(e) && ShutdownEnabled(t, e) && u == ShutdownNext(t, e)
    ensures Manager().Reaches(s, u)
  {
    hide ShutdownEnabled, ShutdownNext;
    ShutdownApplies(t, e);
    hide Enabled, Apply;
    ReachesNext(Manager(), s, t, e);
  }

  /** With no job active and no final write pending, Shutdown's next poll returns nil. */
  lemma IdleManagerLetsShutdownReturn(s: State)
    requires s.shut.pc.Polling? && s.activeJobs == map[] && s.pendingFinalize == 0
    ensures exists u :: Manager().Reaches(s, u) && u.shut.pc.ReturnedNil?
  {
    var t := ShutdownNext(s, BeginCount);
    var v := ShutdownNext(t, EndCount);
    var u := ShutdownNext(v, LoadPending);
    assert t.shut.pc == Counting({}, false) && v.shut.pc.SawNoneActive? && u.shut.pc.ReturnedNil?;
    ReachesItself(Manager(), s);
    hide Machine.Reaches;
    OneStep(s, s, BeginCount, t);
    OneStep(s, t, EndCount, v);
    OneStep(s, v, LoadPending, u);
  }
}
