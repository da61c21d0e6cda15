/** Cancelling (job/job_manager.go): once the control task of CancelJob or of Shutdown
    is over, the context of every job it was aimed at has ended; a context that nobody
    ends lets its job run; and whatever becomes of an instance, its context is released
    in the end. */
module JobManagerCancels {
  import opened Runs
  import opened FifoRunner
  import opened JobManagers
  import opened JobManagerInvariant
  import opened JobManagerOutcomes
  import opened JobManagerRuns
  import opened JobManagerCalls

  // ----- the places that call a job's cancel function -----

  /** What is about to call the cancel function does so before it goes on. */
  predicate PcsCancel(s: State, t: State)
  {
    && (s.controlPc.FinalCancel? || s.controlPc.CancelCancel? ==>
          t.controlPc == s.controlPc || s.controlPc.j in t.cancelled)
    && (s.ioPc.CancelInfo? ==> t.ioPc == s.ioPc || s.ioPc.j in t.cancelled)
  }

  lemma StepPcsCancel(s: State, e: Event)
    requires Enabled(s, e)
    ensures PcsCancel(s, Apply(s, e))
  {
    hide ExecNext, ClientNext, ShutdownNext, IoNext, SubmitNext, FinishNext, ExecEnabled,
         ClientEnabled, ShutdownEnabled, ControlEnabled, IoEnabled, PcsCancel;
    if IsExec(e) { ExecPcsCancel(s, e); }
    else if IsClient(e) { ClientPcsCancel(s, e); }
    else if IsShutdown(e) { ShutdownPcsCancel(s, e); }
    else if IsRunner(e) { TurnPcsCancel(s, e); }
    else if e.CancelOne? { OnePcsCancel(s, e.id); }
    else if e.RecoverJob? { RecoverPcsCancel(s, e.id, e.found); }
    else if e.IoStep? { IoPcsCancel(s, e.outcome); }
    else if Submitting(s.controlPc) { SubmitPcsCancel(s, e.choice); }
    else {
      ChoiceIsFree(s, e.choice);
      FinishPcsCancel(s);
    }
  }

  lemma ExecPcsCancel(s: State, e: Event)
    requires IsExec(e) && ExecEnabled(s, e)
    ensures PcsCancel(s, ExecNext(s, e))
  {
  }

  lemma ClientPcsCancel(s: State, e: Event)
    requires IsClient(e) && ClientEnabled(s, e)
    ensures PcsCancel(s, ClientNext(s, e))
  {
  }

  lemma ShutdownPcsCancel(s: State, e: Event)
    requires IsShutdown(e) && ShutdownEnabled(s, e)
    ensures PcsCancel(s, ShutdownNext(s, e))
  {
  }

  lemma TurnPcsCancel(s: State, e: Event)
    requires IsRunner(e) && RunnerEnabled(s, e)
    ensures PcsCancel(s, RunnerNext(s, e))
  {
  }

  lemma OnePcsCancel(s: State, id: JobID)
    requires s.controlPc.CancelEach?
    ensures PcsCancel(s, CancelOneNext(s, id))
  {
  }

  lemma RecoverPcsCancel(s: State, id: JobID, found: bool)
    ensures PcsCancel(s, RecoverNext(s, id, found))
  {
  }

  lemma IoPcsCancel(s: State, o: Outcome)
    requires IoEnabled(s, o)
    ensures PcsCancel(s, IoNext(s, o))
  {
    hide Attempted, UpdateNext, CreateNext, DecideNext, CheckNext;
    if Updating(s.ioPc) && !s.ioPc.FinalDone? { UpdateFrame(s, o); }
    else if s.ioPc.Create? { CreateFrame(s, o); }
    else if s.ioPc.Schedule? || s.ioPc.Delete? { DecideFrame(s, o); }
    else if !s.ioPc.FinalDone? && !s.ioPc.CancelInfo? && !s.ioPc.Reply? {
      AtCheck(s, o);
      CheckFrame(s, o);
    }
  }

  lemma SubmitPcsCancel(s: State, choice: bool)
    requires Submitting(s.controlPc) && ControlEnabled(s, choice)
    ensures PcsCancel(s, SubmitNext(s, choice))
  {
    hide LookNext;
    if !s.controlPc.SubmitStore? && !s.controlPc.SubmitPost? { LookFrame(s, choice); }
  }

  lemma FinishPcsCancel(s: State)
    requires !Submitting(s.controlPc) && ControlEnabled(s, true)
    ensures PcsCancel(s, FinishNext(s))
  {
    hide RemoveNext;
    if s.controlPc.FinalLoad? { RemovePcsCancel(s); }
  }

  lemma RemovePcsCancel(s: State)
    requires s.controlPc.FinalLoad? && ControlEnabled(s, true)
    ensures PcsCancel(s, RemoveNext(s))
  {
  }

  // ----- no context is left open -----

  /** An instance that is over has had its cancel function called, or that is next. */
  predicate Released(s: State, j: nat)
    requires j < |s.jobs|
  {
    var st := s.jobs[j].stage;
    && (st.Rejected? ==> j in s.cancelled || s.ioPc == CancelInfo(j))
    && (st.Removed? ==> j in s.cancelled || (s.controlPc.FinalCancel? && s.controlPc.j == j))
    && (st.Closed? ==> j in s.cancelled)
  }

  ghost predicate ReleaseInv(s: State) { Inv(s) && forall j :: 0 <= j < |s.jobs| ==> Released(s, j) }

  lemma StaysReleased(s: State, e: Event, j: nat)
    requires Inv(s) && Enabled(s, e) && j < |s.jobs| && Released(s, j)
    ensures j < |Apply(s, e).jobs| && Released(Apply(s, e), j)
  {
    hide Inv, Apply, Enabled;
    StepGoesOn(s, e, j);
    StepPcsCancel(s, e);
  }

  lemma EntersReleased(s: State, e: Event, t: State, j: nat)
    requires Extended(s, e, t) && |s.jobs| <= j < |t.jobs|
    ensures Released(t, j)
  {
  }

  lemma StepKeepsReleased(s: State, e: Event)
    requires ReleaseInv(s) && Enabled(s, e)
    ensures ReleaseInv(Apply(s, e))
  {
    hide Inv, Apply, Enabled, Released, Extended;
    var t := Apply(s, e);
    StepKeepsInv(s, e);
    StepExtends(s, e);
    forall j: nat | j < |t.jobs| ensures Released(t, j) {
      if j < |s.jobs| { StaysReleased(s, e, j); } else { EntersReleased(s, e, t, j); }
    }
  }

  lemma ReachableReleased(s: State)
    requires Reachable(s)
    ensures ReleaseInv(s)
  {
    hide ReleaseInv, Enabled, Apply, Init;
    var durable, maxRetries, store :| Manager().Reaches(Init(durable, maxRetries, store), s);
    InitReleased(durable, maxRetries, store);
    forall s, e | ReleaseInv(s) && Enabled(s, e) ensures ReleaseInv(Apply(s, e)) {
      StepKeepsReleased(s, e);
    }
    InvariantReached(Manager(), s => ReleaseInv(s), Init(durable, maxRetries, store), s);
  }

  lemma InitReleased(durable: bool, maxRetries: int, store: map<JobID, Status>)
    ensures ReleaseInv(Init(durable, maxRetries, store))
  {
    InitInv(durable, maxRetries, store);
    hide Inv;
  }

  /** Every job context is released: that of an instance with its final write posted,
      and that of an admission taken back, once its io task has gone on. */
  lemma ContextsAreReleased(s: State, j: nat)
    requires Reachable(s) && j < |s.jobs|
    requires s.jobs[j].stage.Closed? || (s.jobs[j].stage.Rejected? && s.ioPc != CancelInfo(j))
    ensures j in s.cancelled
  {
    hide Reachable, Inv;
    ReachableReleased(s);
    assert Released(s, j);
  }

  // ----- a cancellation reaches its job -----

  /** The control task cancels the job active under this ID. */
  predicate Hits(t: ControlTask, id: JobID) { t == Cancel(id) || t == CancelAll }

  /** The task at position p of the control log is still to come, or still to get to
      the instance j of this ID. */
  predicate ToCome(c: Fifo<ControlTask>, pc: ControlPc, p: nat, id: JobID, j: nat)
  {
    || (|c.finished| + |AsSeq(c.current)| <= p < |c.Log()| && Hits(c.Log()[p], id))
    || (|c.finished| == p && c.current.Some?
        && (pc == CancelLoad(id) || pc == CancelCancel(j) || pc.CancelAllStart? || (pc.CancelEach? && id in pc.left)))
  }

  ghost predicate Aimed(s: State, p: nat, id: JobID, j: nat)
  {
    && Inv(s) && j < |s.jobs| && s.jobs[j].id == id
    && (|| j in s.cancelled || s.jobs[j].stage.Rejected?
        || (Live(s.jobs[j].stage) && ToCome(s.control, s.controlPc, p, id, j))
        || (s.controlPc.FinalCancel? && s.controlPc.j == j && |s.control.finished| < p))
  }

  lemma ActiveIs(s: State, id: JobID, j: nat)
    requires Inv(s) && j < |s.jobs| && s.jobs[j].id == id && Live(s.jobs[j].stage)
    ensures id in s.activeJobs && s.activeJobs[id] == j
  {
    hide NewestInv, JobInv, ControlInv, FinalizeInv, RequestInv, IoInv, LogInv, WriteInv, RecordInv, ReplyInv,
         PendingInv;
  }

  lemma LogKept(s: State, e: Event, t: State, p: nat)
    requires ControlSide(s, e, t) && p < |s.control.Log()|
    ensures p < |t.control.Log()| && t.control.Log()[p] == s.control.Log()[p]
  {
    LogOnlyGrows(s.control);
    if e.ExecReport? {
      assert t.control.waiting == s.control.waiting + [t.control.waiting[|s.control.waiting|]];
    }
  }

  /** Before its turn the task only comes nearer. */
  lemma ComesNearer(s: State, e: Event, p: nat, id: JobID, j: nat)
    requires Enabled(s, e)
    requires |s.control.finished| + |AsSeq(s.control.current)| <= p < |s.control.Log()| && Hits(s.control.Log()[p], id)
    ensures var t := Apply(s, e); ToCome(t.control, t.controlPc, p, id, j)
  {
    var t := Apply(s, e);
    StepControlSide(s, e);
    hide Apply, Enabled;
    LogKept(s, e, t, p);
    hide Joined;
    if e.ControlBegin? && |s.control.finished| == p {
      assert s.control.Log()[p] == s.control.waiting[0];
    }
  }

  /** At work, the task goes on to the instance or reaches it. */
  lemma GetsThere(s: State, e: Event, p: nat, id: JobID, j: nat)
    requires Inv(s) && Enabled(s, e) && j < |s.jobs| && s.jobs[j].id == id && Live(s.jobs[j].stage)
    requires |s.control.finished| == p && s.control.current.Some?
    requires || s.controlPc == CancelLoad(id) || s.controlPc == CancelCancel(j) || s.controlPc.CancelAllStart?
             || (s.controlPc.CancelEach? && id in s.controlPc.left)
    ensures var t := Apply(s, e); j in t.cancelled || ToCome(t.control, t.controlPc, p, id, j)
  {
    ActiveIs(s, id, j);
    hide Inv, Apply, Enabled;
    OtherStaysThere(s, e);
    if e.ControlStep? {
      CancelStepGetsThere(s, e.choice, id, j);
    } else if e.CancelOne? {
      EachHasLeft(s, e);
      OneGetsThere(s, e.id, id, j);
    }
  }

  lemma EachHasLeft(s: State, e: Event)
    requires Enabled(s, e) && e.CancelOne?
    ensures s.controlPc.CancelEach? && e.id in s.controlPc.left
  {
  }

  lemma OtherStaysThere(s: State, e: Event)
    requires Enabled(s, e) && Cancelling(s.controlPc) && s.control.current.Some?
    ensures var t := Apply(s, e);
            && t.control.finished == s.control.finished && t.control.current == s.control.current
            && (!e.ControlStep? && !e.CancelOne? ==> t.controlPc == s.controlPc)
  {
    StepControlSide(s, e);
    hide Enabled, Apply, Joined;
  }

  lemma CancelStepGetsThere(s: State, choice: bool, id: JobID, j: nat)
    requires Enabled(s, ControlStep(choice)) && id in s.activeJobs && s.activeJobs[id] == j
    requires || s.controlPc == CancelLoad(id) || s.controlPc == CancelCancel(j) || s.controlPc.CancelAllStart?
             || (s.controlPc.CancelEach? && id in s.controlPc.left)
    ensures var t := Apply(s, ControlStep(choice));
            || j in t.cancelled || t.controlPc == CancelCancel(j)
            || (t.controlPc.CancelEach? && id in t.controlPc.left)
  {
    hide ExecNext, ClientNext, ShutdownNext, RunnerNext, RecoverNext, IoNext, SubmitNext, CancelOneNext, RemoveNext,
         MarkNext, FinalPostNext;
  }

  lemma OneGetsThere(s: State, other: JobID, id: JobID, j: nat)
    requires Enabled(s, CancelOne(other)) && id in s.activeJobs && s.activeJobs[id] == j && id in s.controlPc.left
    requires s.controlPc.CancelEach?
    ensures var t := Apply(s, CancelOne(other));
            j in t.cancelled || (t.controlPc.CancelEach? && id in t.controlPc.left)
  {
    hide ExecNext, ClientNext, ShutdownNext, RunnerNext, RecoverNext, IoNext, SubmitNext, FinishNext;
  }

  lemma StaysAimed(s: State, e: Event, p: nat, id: JobID, j: nat)
    requires Aimed(s, p, id, j) && Enabled(s, e)
    ensures Aimed(Apply(s, e), p, id, j)
  {
    var t := Apply(s, e);
    hide Inv, Apply, Enabled;
    StepKeepsInv(s, e);
    StepGoesOn(s, e, j);
    if j !in s.cancelled && !s.jobs[j].stage.Rejected? {
      if s.controlPc.FinalCancel? && s.controlPc.j == j && |s.control.finished| < p {
        FinalGetsThere(s, e, p, j);
      } else {
        TaskGetsThere(s, e, p, id, j);
      }
    }
  }

  lemma FinalGetsThere(s: State, e: Event, p: nat, j: nat)
    requires Inv(s) && Enabled(s, e) && s.controlPc.FinalCancel? && s.controlPc.j == j && |s.control.finished| < p
    ensures var t := Apply(s, e);
            || j in t.cancelled
            || (t.controlPc.FinalCancel? && t.controlPc.j == j && |t.control.finished| < p)
  {
    StepPcsCancel(s, e);
    StepControlSide(s, e);
    hide Inv, Apply, Enabled, Joined;
  }

  /** A live instance stays live, is taken back, or has just been taken out. */
  lemma LiveGoesOn(s: State, e: Event, j: nat)
    requires Inv(s) && Enabled(s, e) && j < |s.jobs| && Live(s.jobs[j].stage)
    ensures var t := Apply(s, e);
            && j < |t.jobs|
            && (|| Live(t.jobs[j].stage) || t.jobs[j].stage.Rejected?
                || (s.controlPc.FinalLoad? && t.controlPc.FinalCancel? && t.controlPc.j == j))
  {
    hide Inv, Apply, Enabled;
    StepGoesOn(s, e, j);
  }

  lemma TaskGetsThere(s: State, e: Event, p: nat, id: JobID, j: nat)
    requires Inv(s) && Enabled(s, e) && j < |s.jobs| && s.jobs[j].id == id && Live(s.jobs[j].stage)
    requires ToCome(s.control, s.controlPc, p, id, j)
    ensures var t := Apply(s, e);
            && j < |t.jobs|
            && (|| j in t.cancelled || t.jobs[j].stage.Rejected?
                || (Live(t.jobs[j].stage) && ToCome(t.control, t.controlPc, p, id, j))
                || (t.controlPc.FinalCancel? && t.controlPc.j == j && |t.control.finished| < p))
  {
    var t := Apply(s, e);
    LiveGoesOn(s, e, j);
    AtFinalLoad(s);
    StepControlSide(s, e);
    hide Inv, Apply, Enabled, ControlSide;
    if s.controlPc.FinalLoad? && t.controlPc.FinalCancel? && t.controlPc.j == j {
      StillBefore(s, e, t, p, id, j);
    } else if |s.control.finished| + |AsSeq(s.control.current)| <= p {
      ComesNearer(s, e, p, id, j);
    } else {
      GetsThere(s, e, p, id, j);
    }
    hide ToCome;
  }

  /** The instance is finalized before the cancelling task gets its turn. */
  lemma StillBefore(s: State, e: Event, t: State, p: nat, id: JobID, j: nat)
    requires ControlSide(s, e, t) && ToCome(s.control, s.controlPc, p, id, j)
    requires s.controlPc.FinalLoad? && s.control.current.Some? && t.controlPc.FinalCancel?
    ensures |t.control.finished| < p
  {
    hide Joined;
  }

  lemma AtFinalLoad(s: State)
    requires Inv(s)
    ensures s.controlPc.FinalLoad? ==> s.control.current.Some?
  {
    hide ActiveInv, NewestInv, JobInv, FinalizeInv, RequestInv, IoInv, LogInv, WriteInv, RecordInv, ReplyInv,
         PendingInv;
  }

  lemma AimedReached(s: State, u: State, p: nat, id: JobID, j: nat)
    requires Aimed(s, p, id, j) && Manager().Reaches(s, u)
    ensures Aimed(u, p, id, j)
  {
    hide Aimed, Enabled, Apply;
    forall u, e | Aimed(u, p, id, j) && Enabled(u, e) ensures Aimed(Apply(u, e), p, id, j) {
      StaysAimed(u, e, p, id, j);
    }
    InvariantReached(Manager(), u => Aimed(u, p, id, j), s, u);
  }

  lemma AimedMeans(u: State, p: nat, id: JobID, j: nat)
    requires Aimed(u, p, id, j) && |u.control.finished| > p
    ensures j < |u.jobs| && (j in u.cancelled || u.jobs[j].stage.Rejected?)
  {
    hide Inv;
  }

  /** CancelJob and Shutdown post one task, which then stands at this place of the log. */
  lemma TaskIsPosted(a: State, e: Event, b: State, id: JobID)
    requires Reachable(a) && Took(a, e, b) && (e == CancelCall(id) || e.PostCancelAll?) && id in a.activeJobs
    ensures Aimed(b, |a.control.Log()|, id, a.activeJobs[id])
  {
    hide Inv, Reachable;
    ReachableInv(a);
    IsActive(a, id);
    StepKeepsInv(a, e);
    StepControlSide(a, e);
    ClientsLeaveJobs(a, e);
    hide Apply, Enabled, ControlSide;
    PostedAtTheEnd(a, e, b);
  }

  lemma PostedAtTheEnd(a: State, e: Event, b: State)
    requires ControlSide(a, e, b) && (e.CancelCall? || e.PostCancelAll?)
    ensures var p := |a.control.Log()|;
            && |b.control.finished| + |AsSeq(b.control.current)| <= p < |b.control.Log()|
            && b.control.Log()[p] == if e.CancelCall? then Cancel(e.id) else CancelAll
  {
    LogOnlyGrows(a.control);
    assert b.control == Post(a.control, if e.CancelCall? then Cancel(e.id) else CancelAll);
  }

  lemma IsActive(a: State, id: JobID)
    requires Inv(a) && id in a.activeJobs
    ensures var j := a.activeJobs[id]; j < |a.jobs| && a.jobs[j].id == id && Live(a.jobs[j].stage)
  {
    hide NewestInv, JobInv, ControlInv, FinalizeInv, RequestInv, IoInv, LogInv, WriteInv, RecordInv, ReplyInv,
         PendingInv;
  }

  lemma ClientsLeaveJobs(a: State, e: Event)
    requires Enabled(a, e) && (e.CancelCall? || e.PostCancelAll?)
    ensures Apply(a, e).jobs == a.jobs
  {
    hide ExecNext, RunnerNext, RecoverNext, IoNext, SubmitNext, FinishNext, CancelOneNext;
  }

  /** Once the task of CancelJob is over, the context of the job that was active under
      the ID at the call has ended, or the admission has been taken back. */
  lemma CancelEndsTheContext(a: State, id: JobID, b: State, u: State)
    requires Reachable(a) && Took(a, CancelCall(id), b) && id in a.activeJobs
    requires Manager().Reaches(b, u) && |u.control.finished| > |a.control.Log()|
    ensures var j := a.activeJobs[id]; j < |u.jobs| && (j in u.cancelled || u.jobs[j].stage.Rejected?)
  {
    TaskIsPosted(a, CancelCall(id), b, id);
    hide Reachable, Took, Aimed;
    AimedReached(b, u, |a.control.Log()|, id, a.activeJobs[id]);
    AimedMeans(u, |a.control.Log()|, id, a.activeJobs[id]);
  }

  /** So has, once Shutdown's task is over, that of every job active when it was posted. */
  lemma ShutdownEndsActiveContexts(a: State, b: State, u: State, id: JobID)
    requires Reachable(a) && Took(a, PostCancelAll, b) && id in a.activeJobs
    requires Manager().Reaches(b, u) && |u.control.finished| > |a.control.Log()|
    ensures var j := a.activeJobs[id]; j < |u.jobs| && (j in u.cancelled || u.jobs[j].stage.Rejected?)
  {
    TaskIsPosted(a, PostCancelAll, b, id);
    hide Reachable, Took, Aimed;
    AimedReached(b, u, |a.control.Log()|, id, a.activeJobs[id]);
    AimedMeans(u, |a.control.Log()|, id, a.activeJobs[id]);
  }
}
