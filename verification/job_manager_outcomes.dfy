/** What becomes of one job (job/job_manager.go): the status its handler came back with
    is the one finalized and written, and an ended context keeps the handler from
    running. */
module JobManagerOutcomes {
  import opened Runs
  import opened FifoRunner
  import opened JobManagers
  import opened JobManagerInvariant
  import opened JobManagerWrites

  // ----- the one path an instance can take -----

  /** The next stage of an instance; done: its context has ended. */
  predicate Onward(a: Job, b: Job, done: bool)
  {
    && b.id == a.id && b.request == a.request
    && b.handlerRuns == a.handlerRuns + (if b.stage.Handling? then 1 else 0)
    && match a.stage
       case Admitted => b.stage.Persisting?
       case Persisting => b.stage.Rejected? || b.stage.Scheduled?
       case Rejected => false
       case Scheduled => if done then b.stage == Reporting(CANCELED) else b.stage.Announcing?
       case Announcing => b.stage.Handling?
       case Handling => b.stage.Reporting?
       case Reporting(st) => b.stage == Finalizing(st)
       case Finalizing(st) => b.stage == Removed(st)
       case Removed(st) => b.stage == Closed(st)
       case Closed(_) => false
       case Unrunnable => false
  }

  /** An instance stays where it is or goes on, and an ended context stays ended. */
  predicate GoesOn(s: State, t: State, j: nat)
    requires j < |s.jobs|
  {
    && j < |t.jobs| && (t.jobs[j] == s.jobs[j] || Onward(s.jobs[j], t.jobs[j], JobContextDone(s, j)))
    && (s.jobs[j].stage.Persisting? && t.jobs[j].stage.Scheduled? ==> s.ioPc == Schedule(j))
    && (s.jobs[j].stage.Persisting? && t.jobs[j].stage.Rejected? ==> t.ioPc == CancelInfo(j))
    && (s.jobs[j].stage.Finalizing? && t.jobs[j].stage.Removed? ==>
          s.controlPc.FinalLoad? && t.controlPc.FinalCancel? && t.controlPc.j == j)
    && (s.jobs[j].stage.Removed? && t.jobs[j].stage.Closed? ==> s.controlPc.FinalPost? && s.controlPc.j == j)
    && s.cancelled <= t.cancelled && s.contextDone <= t.contextDone
    && (JobContextDone(s, j) && s.ioPc != Schedule(j) ==> t.ioPc != Schedule(j))
  }

  lemma StepGoesOn(s: State, e: Event, j: nat)
    requires Inv(s) && Enabled(s, e) && j < |s.jobs|
    ensures GoesOn(s, Apply(s, e), j)
  {
    hide Inv, ExecNext, ClientNext, ShutdownNext, RunnerNext, RecoverNext, IoNext, SubmitNext, FinishNext,
         CancelOneNext, GoesOn;
    if IsExec(e) { ExecGoesOn(s, e, j); }
    else if IsClient(e) { ClientGoesOn(s, e, j); }
    else if IsShutdown(e) { ShutdownGoesOn(s, e, j); }
    else if IsRunner(e) { TurnGoesOn(s, e, j); }
    else if e.CancelOne? { CancelOneGoesOn(s, e.id, j); }
    else if e.RecoverJob? { RecoverGoesOn(s, e.id, e.found, j); }
    else if e.IoStep? { IoGoesOn(s, e.outcome, j); }
    else if Submitting(s.controlPc) { SubmitGoesOn(s, e.choice, j); }
    else { FinishGoesOn(s, j); }
  }

  lemma ExecGoesOn(s: State, e: Event, j: nat)
    requires IsExec(e) && ExecEnabled(s, e) && j < |s.jobs|
    ensures GoesOn(s, ExecNext(s, e), j)
  {
  }

  lemma ClientGoesOn(s: State, e: Event, j: nat)
    requires IsClient(e) && ClientEnabled(s, e) && j < |s.jobs|
    ensures GoesOn(s, ClientNext(s, e), j)
  {
  }

  lemma ShutdownGoesOn(s: State, e: Event, j: nat)
    requires IsShutdown(e) && Enabled(s, e) && j < |s.jobs|
    ensures GoesOn(s, ShutdownNext(s, e), j)
  {
    ShutdownFrame(s, e);
    hide ShutdownNext, Enabled;
  }

  lemma TurnGoesOn(s: State, e: Event, j: nat)
    requires IsRunner(e) && RunnerEnabled(s, e) && j < |s.jobs|
    ensures GoesOn(s, RunnerNext(s, e), j)
  {
  }

  lemma CancelOneGoesOn(s: State, id: JobID, j: nat)
    requires s.controlPc.CancelEach? && j < |s.jobs|
    ensures GoesOn(s, CancelOneNext(s, id), j)
  {
  }

  lemma RecoverGoesOn(s: State, id: JobID, found: bool, j: nat)
    requires j < |s.jobs|
    ensures GoesOn(s, RecoverNext(s, id, found), j)
  {
  }

  // the io tasks

  lemma IoGoesOn(s: State, o: Outcome, j: nat)
    requires Inv(s) && IoEnabled(s, o) && j < |s.jobs|
    ensures GoesOn(s, IoNext(s, o), j)
  {
    hide Inv, GoesOn, CheckNext, CreateNext, DecideNext, AnswerNext, UpdateNext, DoneNext, IoEnabled;
    if s.ioPc.FinalDone? { DoneGoesOn(s, j); }
    else if Updating(s.ioPc) { UpdateGoesOn(s, o, j); }
    else if s.ioPc.Create? { CreateGoesOn(s, o, j); }
    else if s.ioPc.Schedule? || s.ioPc.Delete? { DecideGoesOn(s, o, j); }
    else if s.ioPc.CancelInfo? || s.ioPc.Reply? { AnswerGoesOn(s, j); }
    else {
      AtCheck(s, o);
      CheckGoesOn(s, o, j);
    }
  }

  lemma AtCheck(s: State, o: Outcome)
    requires IoEnabled(s, o) && !Updating(s.ioPc) && !s.ioPc.Create? && !s.ioPc.Schedule? && !s.ioPc.Delete?
    requires !s.ioPc.CancelInfo? && !s.ioPc.Reply?
    ensures CheckStep(s, o)
  {
  }

  lemma DoneGoesOn(s: State, j: nat)
    requires s.ioPc.FinalDone? && j < |s.jobs|
    ensures GoesOn(s, DoneNext(s), j)
  {
  }

  lemma UpdateGoesOn(s: State, o: Outcome, j: nat)
    requires UpdateStep(s, o) && j < |s.jobs|
    ensures GoesOn(s, UpdateNext(s, o), j)
  {
    hide IoEnabled, UpdateNext;
    UpdateFrame(s, o);
  }

  lemma CreateGoesOn(s: State, o: Outcome, j: nat)
    requires IoEnabled(s, o) && s.ioPc.Create? && j < |s.jobs|
    ensures GoesOn(s, CreateNext(s, o), j)
  {
    hide CreateNext;
    CreateFrame(s, o);
  }

  lemma DecideGoesOn(s: State, o: Outcome, j: nat)
    requires Inv(s) && DecideStep(s, o) && j < |s.jobs|
    ensures GoesOn(s, DecideNext(s, o), j)
  {
    hide DecideNext, ActiveInv, NewestInv, JobInv, ControlInv, FinalizeInv, RequestInv, LogInv, WriteInv, RecordInv,
         ReplyInv, PendingInv;
    AtPersist(s);
    hide IoInv;
    DecideFrame(s, o);
  }

  lemma AnswerGoesOn(s: State, j: nat)
    requires (s.ioPc.CancelInfo? || s.ioPc.Reply?) && j < |s.jobs|
    ensures GoesOn(s, AnswerNext(s), j)
  {
  }

  lemma CheckGoesOn(s: State, o: Outcome, j: nat)
    requires CheckStep(s, o) && j < |s.jobs|
    ensures GoesOn(s, CheckNext(s, o), j)
  {
    CheckFrame(s, o);
    assert CheckNext(s, o).ioPc == Schedule(j) ==> s.ioPc == SecondCheck(j) && !JobContextDone(s, j);
    hide CheckNext, IoEnabled;
  }

  // the control tasks

  lemma SubmitGoesOn(s: State, choice: bool, j: nat)
    requires Inv(s) && Submitting(s.controlPc) && ControlEnabled(s, choice) && j < |s.jobs|
    ensures GoesOn(s, SubmitNext(s, choice), j)
  {
    hide Inv, GoesOn, LookNext, AdmitNext, HandOverNext;
    if s.controlPc.SubmitStore? { AdmitGoesOn(s, j); }
    else if s.controlPc.SubmitPost? { HandOverGoesOn(s, j); }
    else { LookGoesOn(s, choice, j); }
  }

  lemma AdmitGoesOn(s: State, j: nat)
    requires s.controlPc.SubmitStore? && s.controlPc.q < |s.requests| && j < |s.jobs|
    ensures GoesOn(s, AdmitNext(s), j)
  {
  }

  lemma HandOverGoesOn(s: State, j: nat)
    requires Inv(s) && s.controlPc.SubmitPost? && s.controlPc.j < |s.jobs| && j < |s.jobs|
    ensures GoesOn(s, HandOverNext(s), j)
  {
    hide ActiveInv, NewestInv, JobInv, FinalizeInv, RequestInv, IoInv, LogInv, WriteInv, RecordInv, ReplyInv,
         PendingInv;
    assert s.jobs[s.controlPc.j].stage.Admitted?;
    hide ControlInv;
  }

  lemma LookGoesOn(s: State, choice: bool, j: nat)
    requires LookStep(s, choice) && j < |s.jobs|
    ensures GoesOn(s, LookNext(s, choice), j)
  {
    hide LookNext;
    LookFrame(s, choice);
  }

  lemma FinishGoesOn(s: State, j: nat)
    requires Inv(s) && !Submitting(s.controlPc) && ControlEnabled(s, true) && j < |s.jobs|
    ensures GoesOn(s, FinishNext(s), j)
  {
    hide Inv, GoesOn, CancelNext, RemoveNext, FinalPostNext, MarkNext;
    if Cancelling(s.controlPc) { CancelGoesOn(s, j); }
    else if s.controlPc.FinalLoad? { RemoveGoesOn(s, j); }
    else if s.controlPc.FinalPost? { FinalPostGoesOn(s, j); }
    else { MarkGoesOn(s, j); }
  }

  lemma CancelGoesOn(s: State, j: nat)
    requires Cancelling(s.controlPc) && j < |s.jobs|
    ensures GoesOn(s, CancelNext(s), j)
  {
  }

  lemma RemoveGoesOn(s: State, j: nat)
    requires Inv(s) && s.controlPc.FinalLoad? && ControlEnabled(s, true) && j < |s.jobs|
    ensures GoesOn(s, RemoveNext(s), j)
  {
    hide NewestInv, JobInv, FinalizeInv, RequestInv, IoInv, LogInv, WriteInv, RecordInv, ReplyInv, PendingInv,
         ActiveInv, ControlInv;
    FinalizesItself(s);
  }

  lemma FinalPostGoesOn(s: State, j: nat)
    requires Inv(s) && s.controlPc.FinalPost? && s.controlPc.j < |s.jobs| && j < |s.jobs|
    ensures GoesOn(s, FinalPostNext(s), j)
  {
    hide NewestInv, JobInv, FinalizeInv, RequestInv, IoInv, LogInv, WriteInv, RecordInv, ReplyInv, PendingInv,
         ActiveInv, ControlInv;
    AtFinal(s);
  }

  lemma MarkGoesOn(s: State, j: nat)
    requires (s.controlPc.FinalCancel? || s.controlPc.FinalAdd?) && j < |s.jobs|
    ensures GoesOn(s, MarkNext(s), j)
  {
  }

  // ----- the handler's status is the one written -----

  /** The instance is past its handler, with this status. */
  ghost predicate OverWith(s: State, j: nat, st: Status)
  {
    Inv(s) && j < |s.jobs| && HandlerOver(s.jobs[j].stage) && s.jobs[j].stage.status == st
  }

  lemma StaysOverWith(s: State, e: Event, j: nat, st: Status)
    requires OverWith(s, j, st) && Enabled(s, e)
    ensures OverWith(Apply(s, e), j, st)
  {
    hide Inv, Enabled, Apply;
    StepKeepsInv(s, e);
    StepGoesOn(s, e, j);
  }

  lemma ReachedOverWith(t: State, u: State, j: nat, st: Status)
    requires OverWith(t, j, st) && Manager().Reaches(t, u)
    ensures OverWith(u, j, st)
  {
    hide OverWith, Enabled, Apply;
    forall u, e | OverWith(u, j, st) && Enabled(u, e) ensures OverWith(Apply(u, e), j, st) {
      StaysOverWith(u, e, j, st);
    }
    InvariantReached(Manager(), u => OverWith(u, j, st), t, u);
  }

  /** Every terminal write of the instance has this status. */
  ghost predicate WritesOnly(s: State, j: nat, st: Status)
  {
    forall i :: 0 <= i < |s.writes| && s.writes[i].job == j && Terminal(s.writes[i].status) ==> s.writes[i].status == st
  }

  lemma OverWritesOnly(u: State, j: nat, st: Status)
    requires OverWith(u, j, st)
    ensures WritesOnly(u, j, st)
  {
    hide ActiveInv, NewestInv, JobInv, ControlInv, FinalizeInv, RequestInv, IoInv, RecordInv, ReplyInv, PendingInv;
    forall i: nat | i < |u.writes| && u.writes[i].job == j && Terminal(u.writes[i].status)
      ensures u.writes[i].status == st
    {
      FinalInLog(u.jobs, u.io.Log(), Begun(u), u.writes, u.store, i);
    }
  }

  lemma FinalInLog(jobs: seq<Job>, log: seq<IoTask>, begun: nat, writes: seq<Write>, store: map<JobID, Status>, i: nat)
    requires LogInv(jobs, log) && WriteInv(jobs, log, begun, writes, store)
    requires i < |writes| && writes[i].job < |jobs| && HandlerOver(jobs[writes[i].job].stage)
    requires Terminal(writes[i].status)
    ensures jobs[writes[i].job].stage == Closed(writes[i].status)
  {
    hide LogInv;
    var p := writes[i].pos;
    assert log[p].job == writes[i].job && StatusOf(log[p]) == writes[i].status;
    hide WriteInv;
    LoggedIsClosed(jobs, log, p);
  }

  lemma LoggedIsClosed(jobs: seq<Job>, log: seq<IoTask>, p: nat)
    requires LogInv(jobs, log) && p < |log| && log[p].SetFinal?
    requires log[p].job < |jobs| && HandlerOver(jobs[log[p].job].stage)
    ensures jobs[log[p].job].stage == Closed(log[p].status)
  {
    var j := log[p].job;
    assert jobs[j].stage.Closed?;
    var r :| 0 <= r < |log| && log[r] == SetFinal(j, jobs[j].stage.status, true);
    hide LogInv;
    FinalIsUnique(jobs, log, p, r);
  }

  lemma LaterInv(s: State, e: Event, t: State)
    requires Reachable(s) && Took(s, e, t)
    ensures Inv(t)
  {
    hide Inv, Enabled, Apply;
    ReachableInv(s);
    StepKeepsInv(s, e);
  }

  lemma Reports(s: State, e: Event, t: State)
    requires Took(s, e, t) && (e.ExecHandle? || (e.ExecCheck? && e.j < |s.jobs| && JobContextDone(s, e.j)))
    ensures e.j < |t.jobs| && t.jobs[e.j].stage == Reporting(if e.ExecHandle? then e.status else CANCELED)
  {
    hide ClientNext, ShutdownNext, RunnerNext, RecoverNext, IoNext, SubmitNext, FinishNext, CancelOneNext;
  }

  /** The status a handler comes back with is never changed on its way: whatever follows,
      the instance stays past its handler with that status, and every terminal write of
      it to the store is that status. */
  lemma HandlersStatusIsWritten(s: State, j: nat, st: Status, t: State, u: State)
    requires Reachable(s) && Took(s, ExecHandle(j, st), t) && Manager().Reaches(t, u)
    ensures j < |u.jobs| && HandlerOver(u.jobs[j].stage) && u.jobs[j].stage.status == st
    ensures forall i :: 0 <= i < |u.writes| && u.writes[i].job == j && Terminal(u.writes[i].status) ==>
              u.writes[i].status == st
  {
    LaterInv(s, ExecHandle(j, st), t);
    Reports(s, ExecHandle(j, st), t);
    hide Reachable, Took, Inv;
    ReachedOverWith(t, u, j, st);
    OverWritesOnly(u, j, st);
  }

  /** So it is with CANCELED for an instance whose context has ended when its wrapper
      checks it. */
  lemma CancelledStatusIsWritten(s: State, j: nat, t: State, u: State)
    requires Reachable(s) && Took(s, ExecCheck(j), t) && j < |s.jobs| && JobContextDone(s, j)
    requires Manager().Reaches(t, u)
    ensures j < |u.jobs| && HandlerOver(u.jobs[j].stage) && u.jobs[j].stage.status == CANCELED
    ensures forall i :: 0 <= i < |u.writes| && u.writes[i].job == j && Terminal(u.writes[i].status) ==>
              u.writes[i].status == CANCELED
  {
    LaterInv(s, ExecCheck(j), t);
    Reports(s, ExecCheck(j), t);
    hide Reachable, Took, Inv;
    ReachedOverWith(t, u, j, CANCELED);
    OverWritesOnly(u, j, CANCELED);
  }

  // ----- an ended context keeps the handler from running -----

  predicate Unbegun(st: Stage) { st.Admitted? || st.Persisting? || st.Scheduled? }

  ghost predicate NeverStarts(s: State, j: nat)
  {
    && Inv(s) && j < |s.jobs| && JobContextDone(s, j) && s.jobs[j].handlerRuns == 0
    && (var st := s.jobs[j].stage;
        Unbegun(st) || st.Rejected? || (HandlerOver(st) && st.status == CANCELED))
  }

  lemma StaysUnstarted(s: State, e: Event, j: nat)
    requires NeverStarts(s, j) && Enabled(s, e)
    ensures NeverStarts(Apply(s, e), j)
  {
    hide Inv, Enabled, Apply;
    StepKeepsInv(s, e);
    StepGoesOn(s, e, j);
  }

  /** An instance whose context ends before its wrapper's check never runs its handler,
      and if it is finalized at all it is as CANCELED. */
  lemma CancelledBeforeStartNeverRuns(s: State, j: nat, u: State)
    requires Reachable(s) && j < |s.jobs| && JobContextDone(s, j) && Unbegun(s.jobs[j].stage)
    requires Manager().Reaches(s, u)
    ensures j < |u.jobs| && u.jobs[j].handlerRuns == 0
    ensures HandlerOver(u.jobs[j].stage) ==> u.jobs[j].stage.status == CANCELED
  {
    hide Reachable, Inv;
    ReachableInv(s);
    NotYetRun(s, j);
    assert NeverStarts(s, j);
    UnstartedReached(s, j, u);
  }

  lemma NotYetRun(s: State, j: nat)
    requires Inv(s) && j < |s.jobs| && Unbegun(s.jobs[j].stage)
    ensures s.jobs[j].handlerRuns == 0
  {
    hide ActiveInv, NewestInv, ControlInv, FinalizeInv, RequestInv, IoInv, LogInv, WriteInv, RecordInv, ReplyInv,
         PendingInv;
  }

  lemma UnstartedReached(s: State, j: nat, u: State)
    requires NeverStarts(s, j) && Manager().Reaches(s, u)
    ensures NeverStarts(u, j)
  {
    hide NeverStarts, Enabled, Apply;
    forall u, e | NeverStarts(u, j) && Enabled(u, e) ensures NeverStarts(Apply(u, e), j) {
      StaysUnstarted(u, e, j);
    }
    InvariantReached(Manager(), u => NeverStarts(u, j), s, u);
  }

  ghost predicate NeverScheduled(s: State, j: nat)
  {
    && Inv(s) && j < |s.jobs| && JobContextDone(s, j) && s.ioPc != Schedule(j)
    && (s.jobs[j].stage.Admitted? || s.jobs[j].stage.Persisting? || s.jobs[j].stage.Rejected?)
  }

  lemma StaysUnscheduled(s: State, e: Event, j: nat)
    requires NeverScheduled(s, j) && Enabled(s, e)
    ensures NeverScheduled(Apply(s, e), j)
  {
    hide Inv, Enabled, Apply;
    StepKeepsInv(s, e);
    StepGoesOn(s, e, j);
  }

  /** One whose context ends before the second check of its io task is not even
      scheduled: its admission is taken back. */
  lemma CancelledBeforeCheckIsNotScheduled(s: State, j: nat, u: State)
    requires Reachable(s) && j < |s.jobs| && JobContextDone(s, j) && s.ioPc != Schedule(j)
    requires s.jobs[j].stage.Admitted? || s.jobs[j].stage.Persisting?
    requires Manager().Reaches(s, u)
    ensures j < |u.jobs| && u.jobs[j].schedules == 0
    ensures u.jobs[j].stage.Admitted? || u.jobs[j].stage.Persisting? || u.jobs[j].stage.Rejected?
  {
    ReachableInv(s);
    assert NeverScheduled(s, j);
    hide NeverScheduled, Enabled, Apply, Reachable;
    forall u, e | NeverScheduled(u, j) && Enabled(u, e) ensures NeverScheduled(Apply(u, e), j) {
      StaysUnscheduled(u, e, j);
    }
    InvariantReached(Manager(), u => NeverScheduled(u, j), s, u);
    UnscheduledMeans(u, j);
  }

  lemma UnscheduledMeans(u: State, j: nat)
    requires NeverScheduled(u, j)
    ensures j < |u.jobs| && u.jobs[j].schedules == 0
    ensures u.jobs[j].stage.Admitted? || u.jobs[j].stage.Persisting? || u.jobs[j].stage.Rejected?
  {
    hide ActiveInv, NewestInv, ControlInv, FinalizeInv, RequestInv, IoInv, LogInv, WriteInv, RecordInv, ReplyInv,
         PendingInv;
  }

  // ----- nothing else does -----

  /** How an instance enters: recovered, or admitted for a call. */
  predicate Enters(s: State, e: Event, b: Job)
  {
    && b.handlerRuns == 0
    && (if e.RecoverJob? then b.id == e.id && b.request.None? && b.stage == (if e.found then Scheduled else Unrunnable)
        else s.controlPc.SubmitStore? && b.request == Some(s.controlPc.q) && b.stage.Admitted?)
  }

  /** All instances there were, and one more at most. */
  predicate Extended(s: State, e: Event, t: State)
  {
    && |s.jobs| <= |t.jobs| <= |s.jobs| + 1
    && (|t.jobs| > |s.jobs| ==> Enters(s, e, t.jobs[|s.jobs|]))
    && (e.RecoverJob? ==> |t.jobs| > |s.jobs|)
  }

  lemma ChoiceIsFree(s: State, choice: bool)
    requires !Submitting(s.controlPc) && ControlEnabled(s, choice)
    ensures ControlEnabled(s, true)
  {
  }

  lemma StepExtends(s: State, e: Event)
    requires Enabled(s, e)
    ensures Extended(s, e, Apply(s, e))
  {
    hide ExecNext, ClientNext, ShutdownNext, RunnerNext, IoNext, SubmitNext, FinishNext, CancelOneNext, ExecEnabled,
         ClientEnabled, ShutdownEnabled, RunnerEnabled, ControlEnabled, IoEnabled, Extended;
    if IsExec(e) { ExecExtends(s, e); }
    else if IsClient(e) { ClientExtends(s, e); }
    else if IsShutdown(e) { ShutdownExtends(s, e); }
    else if IsRunner(e) { TurnExtends(s, e); }
    else if e.CancelOne? { CancelOneExtends(s, e); }
    else if e.RecoverJob? { RecoverExtends(s, e); }
    else if e.IoStep? { IoExtends(s, e); }
    else if Submitting(s.controlPc) { SubmitExtends(s, e); }
    else {
      ChoiceIsFree(s, e.choice);
      FinishExtends(s, e);
    }
  }

  lemma ExecExtends(s: State, e: Event)
    requires IsExec(e) && ExecEnabled(s, e)
    ensures Extended(s, e, ExecNext(s, e))
  {
  }

  lemma ClientExtends(s: State, e: Event)
    requires IsClient(e) && ClientEnabled(s, e)
    ensures Extended(s, e, ClientNext(s, e))
  {
  }

  lemma ShutdownExtends(s: State, e: Event)
    requires IsShutdown(e) && ShutdownEnabled(s, e)
    ensures Extended(s, e, ShutdownNext(s, e))
  {
  }

  lemma TurnExtends(s: State, e: Event)
    requires IsRunner(e) && RunnerEnabled(s, e)
    ensures Extended(s, e, RunnerNext(s, e))
  {
  }

  lemma CancelOneExtends(s: State, e: Event)
    requires e.CancelOne? && s.controlPc.CancelEach?
    ensures Extended(s, e, CancelOneNext(s, e.id))
  {
  }

  lemma RecoverExtends(s: State, e: Event)
    requires e.RecoverJob?
    ensures Extended(s, e, RecoverNext(s, e.id, e.found))
  {
  }

  lemma IoExtends(s: State, e: Event)
    requires e.IoStep? && IoEnabled(s, e.outcome)
    ensures Extended(s, e, IoNext(s, e.outcome))
  {
    hide Attempted, UpdateNext, CreateNext, DecideNext, AnswerNext, CheckNext;
    var o := e.outcome;
    if Updating(s.ioPc) && !s.ioPc.FinalDone? { UpdateFrame(s, o); }
    else if s.ioPc.Create? { CreateFrame(s, o); }
    else if s.ioPc.Schedule? || s.ioPc.Delete? { DecideFrame(s, o); }
    else if s.ioPc.CancelInfo? || s.ioPc.Reply? { AnswerExtends(s, e); }
    else if !s.ioPc.FinalDone? {
      AtCheck(s, o);
      CheckFrame(s, o);
    }
  }

  lemma AnswerExtends(s: State, e: Event)
    requires !e.RecoverJob? && (s.ioPc.CancelInfo? || s.ioPc.Reply?)
    ensures Extended(s, e, AnswerNext(s))
  {
  }

  lemma SubmitExtends(s: State, e: Event)
    requires e.ControlStep? && Submitting(s.controlPc) && ControlEnabled(s, e.choice)
    ensures Extended(s, e, SubmitNext(s, e.choice))
  {
    hide LookNext;
    if !s.controlPc.SubmitStore? && !s.controlPc.SubmitPost? {
      LookFrame(s, e.choice);
    }
  }

  lemma FinishExtends(s: State, e: Event)
    requires e.ControlStep? && !Submitting(s.controlPc) && ControlEnabled(s, true)
    ensures Extended(s, e, FinishNext(s))
  {
    hide CancelNext, RemoveNext, FinalPostNext, MarkNext, Extended;
    if Cancelling(s.controlPc) { CancelExtends(s, e); }
    else if s.controlPc.FinalLoad? { RemoveExtends(s, e); }
    else { FinalExtends(s, e); }
  }

  lemma CancelExtends(s: State, e: Event)
    requires e.ControlStep? && Cancelling(s.controlPc)
    ensures Extended(s, e, CancelNext(s))
  {
    hide CancelNext;
    CancelFrame(s);
  }

  lemma RemoveExtends(s: State, e: Event)
    requires e.ControlStep? && s.controlPc.FinalLoad? && ControlEnabled(s, true)
    ensures Extended(s, e, RemoveNext(s))
  {
  }

  lemma FinalExtends(s: State, e: Event)
    requires e.ControlStep?
    ensures s.controlPc.FinalPost? && s.controlPc.j < |s.jobs| ==> Extended(s, e, FinalPostNext(s))
    ensures s.controlPc.FinalCancel? || s.controlPc.FinalAdd? ==> Extended(s, e, MarkNext(s))
  {
  }

  /** A skipped handler was skipped for an ended context. */
  predicate RunOrCancelled(s: State, j: nat)
    requires j < |s.jobs|
  {
    var st, runs := s.jobs[j].stage, s.jobs[j].handlerRuns;
    && (st.Scheduled? || st.Announcing? || st.Rejected? ==> runs == 0)
    && (st.Handling? ==> runs == 1)
    && (HandlerOver(st) ==> runs == 1 || (runs == 0 && st.status == CANCELED && JobContextDone(s, j)))
  }

  ghost predicate SkipInv(s: State)
  {
    Inv(s) && forall j :: 0 <= j < |s.jobs| ==> RunOrCancelled(s, j)
  }

  lemma StaysRunOrCancelled(s: State, e: Event, j: nat)
    requires Inv(s) && Enabled(s, e) && j < |s.jobs| && RunOrCancelled(s, j)
    ensures j < |Apply(s, e).jobs| && RunOrCancelled(Apply(s, e), j)
  {
    hide Inv, Apply, Enabled;
    StepGoesOn(s, e, j);
    NoRunsBefore(s, j);
  }

  lemma NoRunsBefore(s: State, j: nat)
    requires Inv(s) && j < |s.jobs|
    ensures Unbegun(s.jobs[j].stage) ==> s.jobs[j].handlerRuns == 0
  {
    if Unbegun(s.jobs[j].stage) { NotYetRun(s, j); }
  }

  lemma EntersUnrun(s: State, e: Event, t: State, j: nat)
    requires Extended(s, e, t) && |s.jobs| <= j < |t.jobs|
    ensures RunOrCancelled(t, j)
  {
  }

  lemma StepKeepsSkip(s: State, e: Event)
    requires SkipInv(s) && Enabled(s, e)
    ensures SkipInv(Apply(s, e))
  {
    hide Inv, Apply, Enabled, RunOrCancelled, Extended;
    var t := Apply(s, e);
    StepKeepsInv(s, e);
    StepExtends(s, e);
    forall j: nat | j < |t.jobs| ensures RunOrCancelled(t, j) {
      if j < |s.jobs| {
        StaysRunOrCancelled(s, e, j);
      } else {
        EntersUnrun(s, e, t, j);
      }
    }
  }

  lemma ReachableSkip(s: State)
    requires Reachable(s)
    ensures SkipInv(s)
  {
    var durable, maxRetries, store :| Manager().Reaches(Init(durable, maxRetries, store), s);
    InitInv(durable, maxRetries, store);
    assert SkipInv(Init(durable, maxRetries, store)) by { hide Inv; }
    hide SkipInv, Enabled, Apply, Init;
    forall s, e | SkipInv(s) && Enabled(s, e) ensures SkipInv(Apply(s, e)) {
      StepKeepsSkip(s, e);
    }
    InvariantReached(Manager(), s => SkipInv(s), Init(durable, maxRetries, store), s);
  }

  /** An instance past its handler has run it exactly once, or not at all because its
      context had ended when its wrapper checked it: then it is on its way as CANCELED. */
  lemma HandlerRunsUnlessCancelled(s: State, j: nat)
    requires Reachable(s) && j < |s.jobs| && HandlerOver(s.jobs[j].stage)
    ensures s.jobs[j].handlerRuns == 1
            || (s.jobs[j].handlerRuns == 0 && s.jobs[j].stage.status == CANCELED && JobContextDone(s, j))
  {
    ReachableSkip(s);
    assert RunOrCancelled(s, j);
  }

  lemma RejectedNeverRan(s: State, j: nat)
    requires Reachable(s) && j < |s.jobs| && s.jobs[j].stage.Rejected?
    ensures s.jobs[j].handlerRuns == 0
  {
    ReachableSkip(s);
    assert RunOrCancelled(s, j);
  }

  // ----- who ends a context -----

  /** The job's own cancel function is called by cancelJobControl, by Shutdown's task,
      after LoadAndDelete, or for an admission taken back. */
  predicate EndsNow(s: State, e: Event, j: nat)
  {
    || s.controlPc == CancelCancel(j) || e.CancelOne? || (s.controlPc.FinalCancel? && s.controlPc.j == j)
    || s.ioPc == CancelInfo(j)
  }

  predicate CancelsRightly(s: State, e: Event, t: State)
  {
    forall j: nat :: j in t.cancelled && j !in s.cancelled ==> EndsNow(s, e, j)
  }

  lemma StepCancelsRightly(s: State, e: Event)
    requires Enabled(s, e)
    ensures CancelsRightly(s, e, Apply(s, e))
  {
    hide ExecNext, ClientNext, ShutdownNext, RunnerNext, IoNext, SubmitNext, FinishNext, ExecEnabled,
         ClientEnabled, ShutdownEnabled, RunnerEnabled, ControlEnabled, IoEnabled, CancelsRightly;
    if IsExec(e) { ExecCancelsNone(s, e); }
    else if IsClient(e) { ClientCancelsNone(s, e); }
    else if IsShutdown(e) { ShutdownCancelsNone(s, e); }
    else if IsRunner(e) { TurnCancelsNone(s, e); }
    else if e.CancelOne? { CancelOneCancels(s, e); }
    else if e.RecoverJob? { RecoverCancelsNone(s, e); }
    else if e.IoStep? { IoCancels(s, e); }
    else if Submitting(s.controlPc) { SubmitCancelsNone(s, e); }
    else {
      ChoiceIsFree(s, e.choice);
      FinishCancels(s, e);
    }
  }

  lemma ExecCancelsNone(s: State, e: Event)
    requires IsExec(e) && ExecEnabled(s, e)
    ensures CancelsRightly(s, e, ExecNext(s, e))
  {
  }

  lemma ClientCancelsNone(s: State, e: Event)
    requires IsClient(e) && ClientEnabled(s, e)
    ensures CancelsRightly(s, e, ClientNext(s, e))
  {
  }

  lemma ShutdownCancelsNone(s: State, e: Event)
    requires IsShutdown(e) && ShutdownEnabled(s, e)
    ensures CancelsRightly(s, e, ShutdownNext(s, e))
  {
  }

  lemma TurnCancelsNone(s: State, e: Event)
    requires IsRunner(e) && RunnerEnabled(s, e)
    ensures CancelsRightly(s, e, RunnerNext(s, e))
  {
  }

  lemma CancelOneCancels(s: State, e: Event)
    requires e.CancelOne? && s.controlPc.CancelEach?
    ensures CancelsRightly(s, e, CancelOneNext(s, e.id))
  {
  }

  lemma RecoverCancelsNone(s: State, e: Event)
    requires e.RecoverJob?
    ensures CancelsRightly(s, e, RecoverNext(s, e.id, e.found))
  {
  }

  lemma IoCancels(s: State, e: Event)
    requires e.IoStep? && IoEnabled(s, e.outcome)
    ensures CancelsRightly(s, e, IoNext(s, e.outcome))
  {
    hide Attempted, UpdateNext, CreateNext, DecideNext, CheckNext;
    var o := e.outcome;
    if Updating(s.ioPc) && !s.ioPc.FinalDone? { UpdateFrame(s, o); }
    else if s.ioPc.Create? { CreateFrame(s, o); }
    else if s.ioPc.Schedule? || s.ioPc.Delete? { DecideFrame(s, o); }
    else if !s.ioPc.FinalDone? && !s.ioPc.CancelInfo? && !s.ioPc.Reply? {
      AtCheck(s, o);
      CheckFrame(s, o);
    }
  }

  lemma SubmitCancelsNone(s: State, e: Event)
    requires e.ControlStep? && Submitting(s.controlPc) && ControlEnabled(s, e.choice)
    ensures CancelsRightly(s, e, SubmitNext(s, e.choice))
  {
    hide LookNext;
    if !s.controlPc.SubmitStore? && !s.controlPc.SubmitPost? {
      LookFrame(s, e.choice);
    }
  }

  lemma FinishCancels(s: State, e: Event)
    requires e.ControlStep? && !Submitting(s.controlPc) && ControlEnabled(s, true)
    ensures CancelsRightly(s, e, FinishNext(s))
  {
    hide CancelNext, RemoveNext, FinalPostNext, MarkNext, CancelsRightly;
    if Cancelling(s.controlPc) { CancelCancels(s, e); }
    else if s.controlPc.FinalLoad? { RemoveCancelsNone(s, e); }
    else { MarkCancels(s, e); }
  }

  lemma CancelCancels(s: State, e: Event)
    requires e.ControlStep? && Cancelling(s.controlPc)
    ensures CancelsRightly(s, e, CancelNext(s))
  {
  }

  lemma RemoveCancelsNone(s: State, e: Event)
    requires e.ControlStep? && s.controlPc.FinalLoad? && ControlEnabled(s, true)
    ensures CancelsRightly(s, e, RemoveNext(s))
  {
  }

  lemma MarkCancels(s: State, e: Event)
    requires e.ControlStep?
    ensures s.controlPc.FinalPost? && s.controlPc.j < |s.jobs| ==> CancelsRightly(s, e, FinalPostNext(s))
    ensures s.controlPc.FinalCancel? || s.controlPc.FinalAdd? ==> CancelsRightly(s, e, MarkNext(s))
  {
  }
}
