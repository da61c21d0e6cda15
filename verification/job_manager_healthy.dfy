/** When nothing goes wrong (job/job_manager.go): without cancellations, ended contexts
    and a Shutdown every scheduled job runs its handler, and if the store fails nobody
    either, SubmitJob accepts every new ID and the job runs to its end. */
module JobManagerHealthy {
  import opened Runs
  import opened FifoRunner
  import opened JobManagers
  import opened JobManagerInvariant
  import opened JobManagerWrites
  import opened JobManagerOutcomes
  import opened JobManagerRuns
  import opened JobManagerCalls

  // ----- the io runner's side of a step -----

  /** An attempt to write the store. */
  predicate Attempting(pc: IoPc) { pc.Create? || pc.Running? || pc.Final? }

  /** What a step that is no step of an io task does there. */
  predicate IoSide(s: State, e: Event, t: State)
  {
    && (e.IoBegin? ==> s.ioPc.NoIo? && CanBegin(s.io) && t.ioPc == IoStart(s.io.waiting[0]))
    && (e.IoEnd? ==> s.ioPc.IoOver? && t.ioPc.NoIo?)
    && (!e.IoBegin? && !e.IoEnd? ==> t.ioPc == s.ioPc)
    && t.ioReply == s.ioReply && t.store == s.store && t.writes == s.writes
  }

  lemma StepIoSide(s: State, e: Event)
    requires Enabled(s, e) && !e.IoStep?
    ensures IoSide(s, e, Apply(s, e))
  {
    hide ExecNext, ClientNext, ShutdownNext, RunnerNext, SubmitNext, FinishNext, CancelOneNext, ExecEnabled,
         ClientEnabled, ShutdownEnabled, RunnerEnabled, ControlEnabled, IoEnabled, IoSide;
    if IsExec(e) { ExecIoSide(s, e); }
    else if IsClient(e) { ClientIoSide(s, e); }
    else if IsShutdown(e) { ShutdownIoSide(s, e); }
    else if IsRunner(e) { TurnIoSide(s, e); }
    else if e.CancelOne? { CancelOneIoSide(s, e); }
    else if e.RecoverJob? { RecoverIoSide(s, e); }
    else if Submitting(s.controlPc) { SubmitIoSide(s, e); }
    else {
      ChoiceIsFree(s, e.choice);
      FinishIoSide(s, e);
    }
  }

  lemma ExecIoSide(s: State, e: Event)
    requires IsExec(e) && ExecEnabled(s, e)
    ensures IoSide(s, e, ExecNext(s, e))
  {
  }

  lemma ClientIoSide(s: State, e: Event)
    requires IsClient(e) && ClientEnabled(s, e)
    ensures IoSide(s, e, ClientNext(s, e))
  {
  }

  lemma ShutdownIoSide(s: State, e: Event)
    requires IsShutdown(e) && ShutdownEnabled(s, e)
    ensures IoSide(s, e, ShutdownNext(s, e))
  {
  }

  lemma TurnIoSide(s: State, e: Event)
    requires IsRunner(e) && RunnerEnabled(s, e)
    ensures IoSide(s, e, RunnerNext(s, e))
  {
  }

  lemma CancelOneIoSide(s: State, e: Event)
    requires e.CancelOne? && s.controlPc.CancelEach?
    ensures IoSide(s, e, CancelOneNext(s, e.id))
  {
  }

  lemma RecoverIoSide(s: State, e: Event)
    requires e.RecoverJob?
    ensures IoSide(s, e, RecoverNext(s, e.id, e.found))
  {
  }

  lemma SubmitIoSide(s: State, e: Event)
    requires e.ControlStep? && Submitting(s.controlPc) && ControlEnabled(s, e.choice)
    ensures IoSide(s, e, SubmitNext(s, e.choice))
  {
    hide LookNext;
    if !s.controlPc.SubmitStore? && !s.controlPc.SubmitPost? { LookFrame(s, e.choice); }
  }

  lemma FinishIoSide(s: State, e: Event)
    requires e.ControlStep? && !Submitting(s.controlPc) && ControlEnabled(s, true)
    ensures IoSide(s, e, FinishNext(s))
  {
    hide CancelNext, RemoveNext, FinalPostNext, MarkNext;
    if Cancelling(s.controlPc) { CancelFrame(s); }
    else if s.controlPc.FinalLoad? { RemoveIoSide(s, e); }
    else { FinalIoSide(s, e); }
  }

  lemma RemoveIoSide(s: State, e: Event)
    requires e.ControlStep? && s.controlPc.FinalLoad? && ControlEnabled(s, true)
    ensures IoSide(s, e, RemoveNext(s))
  {
  }

  lemma FinalIoSide(s: State, e: Event)
    requires e.ControlStep?
    ensures s.controlPc.FinalPost? && s.controlPc.j < |s.jobs| ==> IoSide(s, e, FinalPostNext(s))
    ensures s.controlPc.FinalCancel? || s.controlPc.FinalAdd? ==> IoSide(s, e, MarkNext(s))
  {
  }

  // ----- the store changes by attempts alone -----

  /** The write that the io task at hand makes. */
  predicate WritesItsStatus(s: State, t: State)
  {
    && s.io.current.Some? && s.io.current.value.job < |s.jobs|
    && (var task := s.io.current.value;
        && t.store == s.store[s.jobs[task.job].id := StatusOf(task)]
        && t.writes == s.writes + [Write(|s.io.finished|, task.job, StatusOf(task))])
  }

  /** The store and its history of writes change by the successful attempts of the io
      task at hand, each of which shows that task's status under its job's ID, and in
      no other way. */
  lemma StoreChangesExactlyByWrites(s: State, e: Event, t: State)
    requires Reachable(s) && Took(s, e, t)
    ensures e.IoStep? && Attempting(s.ioPc) && Wrote(e.outcome) ==> WritesItsStatus(s, t)
    ensures !(e.IoStep? && Attempting(s.ioPc) && Wrote(e.outcome)) ==> t.store == s.store && t.writes == s.writes
  {
    ReachableInv(s);
    hide Reachable, Inv;
    if !e.IoStep? {
      StepIoSide(s, e);
    } else if Attempting(s.ioPc) {
      AttemptWritesItsStatus(s, e.outcome);
    } else {
      OthersWriteNothing(s, e.outcome);
    }
  }

  lemma AttemptWritesItsStatus(s: State, o: Outcome)
    requires Inv(s) && Attempting(s.ioPc) && Enabled(s, IoStep(o))
    ensures var t := Apply(s, IoStep(o));
            if Wrote(o) then WritesItsStatus(s, t) else t.store == s.store && t.writes == s.writes
  {
    TaskAtHand(s);
    IoEnabledNow(s, o);
    hide Inv;
    if s.ioPc.Create? { CreateWrites(s, o); } else { UpdateWritesIts(s, o); }
    IoApplies(s, o);
    hide Apply, Enabled, IoEnabled, UpdateNext, CreateNext;
  }

  lemma IoEnabledNow(s: State, o: Outcome)
    requires Enabled(s, IoStep(o))
    ensures IoEnabled(s, o)
  {
  }

  lemma TaskAtHand(s: State)
    requires Inv(s) && Attempting(s.ioPc)
    ensures s.io.current.Some? && s.io.current.value.job == s.ioPc.j < |s.jobs|
    ensures StatusOf(s.io.current.value) == if s.ioPc.Create? then PENDING else Updates(s)
  {
    hide ActiveInv, NewestInv, JobInv, ControlInv, FinalizeInv, RequestInv, WriteInv, RecordInv, ReplyInv, PendingInv;
    CurrentIsLogged(s);
    hide LogInv;
  }

  lemma CreateWrites(s: State, o: Outcome)
    requires IoEnabled(s, o) && s.ioPc.Create?
    ensures var t := CreateNext(s, o);
            && t.store == (if Wrote(o) then s.store[s.jobs[s.ioPc.j].id := PENDING] else s.store)
            && t.writes == (if Wrote(o) then s.writes + [Write(|s.io.finished|, s.ioPc.j, PENDING)] else s.writes)
  {
  }

  lemma UpdateWritesIts(s: State, o: Outcome)
    requires UpdateStep(s, o)
    ensures var t, st := UpdateNext(s, o), Updates(s);
            && s.ioPc.j < |s.jobs|
            && t.store == (if Wrote(o) then s.store[s.jobs[s.ioPc.j].id := st] else s.store)
            && t.writes == (if Wrote(o) then s.writes + [Write(|s.io.finished|, s.ioPc.j, st)] else s.writes)
  {
    UpdateFrame(s, o);
    hide UpdateNext;
  }

  lemma OthersWriteNothing(s: State, o: Outcome)
    requires !Attempting(s.ioPc) && Enabled(s, IoStep(o))
    ensures Apply(s, IoStep(o)).store == s.store && Apply(s, IoStep(o)).writes == s.writes
  {
    IoEnabledNow(s, o);
    IoApplies(s, o);
    hide Apply, Enabled, UpdateNext, CreateNext, DecideNext, CheckNext;
    if s.ioPc.Schedule? || s.ioPc.Delete? { DecideFrame(s, o); }
    else if !s.ioPc.FinalDone? && !s.ioPc.CancelInfo? && !s.ioPc.Reply? {
      AtCheck(s, o);
      CheckFrame(s, o);
    }
  }

  // ----- runs that nobody disturbs -----

  /** A call of CancelJob or Shutdown, or the end of a caller's context. */
  predicate Disturbs(e: Event) { e.CancelCall? || e.EndContext? || e.CloseManager? }

  function Undisturbed(): Machine<State, Event>
  {
    Machine((s, e) => Enabled(s, e) && !Disturbs(e), (s, e) requires Enabled(s, e) => Apply(s, e))
  }

  predicate NobodyCancels(waiting: seq<ControlTask>, pc: ControlPc)
  {
    !Cancelling(pc) && forall k :: 0 <= k < |waiting| ==> !waiting[k].Cancel? && !waiting[k].CancelAll?
  }

  predicate Past(st: Stage) { st.Rejected? || st.Removed? || st.Closed? }

  ghost predicate CancelledArePast(s: State)
  {
    forall j :: j in s.cancelled ==> j < |s.jobs| && Past(s.jobs[j].stage)
  }

  ghost predicate CalmInv(s: State)
  {
    && Inv(s) && s.contextDone == {} && !s.shut.closed && s.shut.pc.NotCalled?
    && NobodyCancels(s.control.waiting, s.controlPc) && CancelledArePast(s)
  }

  lemma CalmContexts(s: State, j: nat)
    requires CalmInv(s) && j < |s.jobs| && !Past(s.jobs[j].stage)
    ensures !JobContextDone(s, j)
  {
    hide Inv;
  }

  lemma StaysOpen(s: State, e: Event)
    requires Enabled(s, e) && !Disturbs(e) && !s.shut.closed && s.shut.pc.NotCalled?
    ensures !Apply(s, e).shut.closed && Apply(s, e).shut.pc.NotCalled? && !IsShutdown(e)
  {
    hide ExecNext, RunnerNext, IoNext, SubmitNext, FinishNext, CancelOneNext, ExecEnabled, RunnerEnabled,
         ControlEnabled, IoEnabled, ClientNext, ClientEnabled;
    if IsClient(e) { ClientLeavesOpen(s, e); }
    else if IsExec(e) { ExecLeavesShut(s, e); }
    else if IsRunner(e) || e.CancelOne? { TurnLeavesShut(s, e); }
    else if e.IoStep? { IoLeavesShut(s, e.outcome); }
    else if e.ControlStep? && Submitting(s.controlPc) { SubmitLeavesShut(s, e.choice); }
    else if e.ControlStep? {
      ChoiceIsFree(s, e.choice);
      FinishLeavesOpen(s);
    }
  }

  lemma ClientLeavesOpen(s: State, e: Event)
    requires IsClient(e) && ClientEnabled(s, e)
    ensures ClientNext(s, e).shut.closed == s.shut.closed && ClientNext(s, e).shut.pc == s.shut.pc
  {
  }

  lemma ExecLeavesShut(s: State, e: Event)
    requires IsExec(e) && ExecEnabled(s, e)
    ensures ExecNext(s, e).shut == s.shut
  {
  }

  lemma TurnLeavesShut(s: State, e: Event)
    ensures IsRunner(e) && RunnerEnabled(s, e) ==> RunnerNext(s, e).shut == s.shut
    ensures e.CancelOne? && s.controlPc.CancelEach? ==> CancelOneNext(s, e.id).shut == s.shut
  {
  }

  lemma IoLeavesShut(s: State, o: Outcome)
    requires IoEnabled(s, o)
    ensures IoNext(s, o).shut == s.shut
  {
    hide Attempted, UpdateNext, CreateNext, DecideNext, CheckNext;
    if Updating(s.ioPc) && !s.ioPc.FinalDone? { UpdateFrame(s, o); }
    else if s.ioPc.Create? { CreateFrame(s, o); }
    else if s.ioPc.Schedule? || s.ioPc.Delete? { DecideFrame(s, o); }
    else if !s.ioPc.FinalDone? && !s.ioPc.CancelInfo? && !s.ioPc.Reply? {
      AtCheck(s, o);
      CheckFrame(s, o);
    }
  }

  lemma SubmitLeavesShut(s: State, choice: bool)
    requires Submitting(s.controlPc) && ControlEnabled(s, choice)
    ensures SubmitNext(s, choice).shut == s.shut
  {
    hide LookNext;
    if !s.controlPc.SubmitStore? && !s.controlPc.SubmitPost? { LookFrame(s, choice); }
  }

  lemma FinishLeavesOpen(s: State)
    requires !Submitting(s.controlPc) && ControlEnabled(s, true)
    ensures FinishNext(s).shut.closed == s.shut.closed && FinishNext(s).shut.pc == s.shut.pc
  {
    hide RemoveNext, MarkNext, FinalPostNext;
    if s.controlPc.FinalLoad? { RemoveLeavesShut(s); }
    else if !Cancelling(s.controlPc) { FinalLeavesShut(s); }
  }

  lemma RemoveLeavesShut(s: State)
    requires s.controlPc.FinalLoad? && ControlEnabled(s, true)
    ensures RemoveNext(s).shut == s.shut
  {
    var t := RemoveNext(s);
    assert t.(jobs := s.jobs, activeJobs := s.activeJobs, controlPc := s.controlPc) == s;
    hide RemoveNext, ControlEnabled;
  }

  lemma FinalLeavesShut(s: State)
    ensures s.controlPc.FinalPost? && s.controlPc.j < |s.jobs| ==> FinalPostNext(s).shut == s.shut
    ensures s.controlPc.FinalCancel? || s.controlPc.FinalAdd? ==> MarkNext(s).shut == s.shut
  {
  }

  lemma NoneJoins(s: State, e: Event, t: State)
    requires ControlSide(s, e, t) && NobodyCancels(s.control.waiting, s.controlPc)
    requires !e.CancelCall? && !e.PostCancelAll?
    ensures forall k :: 0 <= k < |t.control.waiting| ==>
              !t.control.waiting[k].Cancel? && !t.control.waiting[k].CancelAll?
    ensures !e.ControlStep? && !e.CancelOne? ==> !Cancelling(t.controlPc)
  {
  }

  lemma StaysUncancelled(s: State, e: Event)
    requires CalmInv(s) && Enabled(s, e) && !Disturbs(e)
    ensures var t := Apply(s, e); NobodyCancels(t.control.waiting, t.controlPc) && t.contextDone == {}
  {
    hide Inv, CancelledArePast, Apply, Enabled, ControlSide, Joined;
    StaysOpen(s, e);
    StepControlSide(s, e);
    if e.ControlStep? { NoCancelBegins(s, e.choice); }
    NoCancelOne(s, e);
    NoneJoins(s, e, Apply(s, e));
    ContextsFollow(s, e, Apply(s, e));
  }

  lemma ContextsFollow(s: State, e: Event, t: State)
    requires ControlSide(s, e, t)
    ensures t.contextDone == (if e.EndContext? then s.contextDone + {e.q} else s.contextDone)
  {
    hide Joined;
  }

  lemma NoCancelOne(s: State, e: Event)
    requires Enabled(s, e) && !Cancelling(s.controlPc)
    ensures !e.CancelOne?
  {
  }

  lemma NoCancelBegins(s: State, choice: bool)
    requires Enabled(s, ControlStep(choice)) && !Cancelling(s.controlPc)
    ensures !Cancelling(Apply(s, ControlStep(choice)).controlPc)
  {
    hide Enabled, Apply;
    ControlStepProgresses(s, choice);
  }

  lemma CancelledStayPast(s: State, e: Event, j: nat)
    requires CalmInv(s) && Enabled(s, e) && !Disturbs(e) && j in Apply(s, e).cancelled
    ensures j < |Apply(s, e).jobs| && Past(Apply(s, e).jobs[j].stage)
  {
    hide Inv, Apply, Enabled;
    if j !in s.cancelled {
      JustCancelled(s, e, j);
    }
    PastStays(s, e, j);
  }

  lemma JustCancelled(s: State, e: Event, j: nat)
    requires Inv(s) && Enabled(s, e) && !Cancelling(s.controlPc) && j in Apply(s, e).cancelled && j !in s.cancelled
    ensures j < |s.jobs| && Past(s.jobs[j].stage)
  {
    StepCancelsRightly(s, e);
    NoCancelOne(s, e);
    hide Inv, Apply, Enabled;
    AtTheEnd(s, j);
  }

  lemma PastStays(s: State, e: Event, j: nat)
    requires Inv(s) && Enabled(s, e) && j < |s.jobs| && Past(s.jobs[j].stage)
    ensures j < |Apply(s, e).jobs| && Past(Apply(s, e).jobs[j].stage)
  {
    hide Inv, Apply, Enabled;
    StepGoesOn(s, e, j);
  }

  lemma AtTheEnd(s: State, j: nat)
    requires Inv(s) && ((s.controlPc.FinalCancel? && s.controlPc.j == j) || s.ioPc == CancelInfo(j))
    ensures j < |s.jobs| && Past(s.jobs[j].stage)
  {
    hide ActiveInv, NewestInv, JobInv, FinalizeInv, RequestInv, LogInv, WriteInv, RecordInv, ReplyInv, PendingInv;
  }

  lemma StayPast(s: State, e: Event)
    requires CalmInv(s) && Enabled(s, e) && !Disturbs(e)
    ensures CancelledArePast(Apply(s, e))
  {
    var t := Apply(s, e);
    hide CalmInv, Apply, Enabled, Past;
    forall j: nat | j in t.cancelled ensures j < |t.jobs| && Past(t.jobs[j].stage) {
      CancelledStayPast(s, e, j);
    }
  }

  lemma StaysCalm(s: State, e: Event)
    requires CalmInv(s) && Enabled(s, e) && !Disturbs(e)
    ensures CalmInv(Apply(s, e))
  {
    hide Inv, Apply, Enabled, NobodyCancels, CancelledArePast;
    StepKeepsInv(s, e);
    StaysOpen(s, e);
    StaysUncancelled(s, e);
    StayPast(s, e);
  }

  /** What has been scheduled and is past its handler has run it. */
  predicate HasRunOnce(job: Job)
  {
    && (Unbegun(job.stage) || job.stage.Announcing? ==> job.handlerRuns == 0)
    && (job.stage.Handling? || HandlerOver(job.stage) ==> job.handlerRuns == 1)
  }

  ghost predicate UndisturbedInv(s: State)
  {
    CalmInv(s) && forall j :: 0 <= j < |s.jobs| ==> HasRunOnce(s.jobs[j])
  }

  lemma OnwardRunsOnce(a: Job, b: Job, done: bool)
    requires HasRunOnce(a) && (b == a || Onward(a, b, done)) && (done ==> !a.stage.Scheduled?)
    ensures HasRunOnce(b)
  {
  }

  lemma RunsOnce(s: State, e: Event, j: nat)
    requires CalmInv(s) && Enabled(s, e) && j < |s.jobs| && HasRunOnce(s.jobs[j])
    ensures j < |Apply(s, e).jobs| && HasRunOnce(Apply(s, e).jobs[j])
  {
    if s.jobs[j].stage.Scheduled? { CalmContexts(s, j); }
    hide Inv, Apply, Enabled, JobContextDone, NobodyCancels, CancelledArePast, Onward, HasRunOnce;
    StepGoesOn(s, e, j);
    OnwardRunsOnce(s.jobs[j], Apply(s, e).jobs[j], JobContextDone(s, j));
  }

  lemma StaysUndisturbed(s: State, e: Event)
    requires UndisturbedInv(s) && Enabled(s, e) && !Disturbs(e)
    ensures UndisturbedInv(Apply(s, e))
  {
    var t := Apply(s, e);
    hide CalmInv, Apply, Enabled, HasRunOnce, Extended;
    StaysCalm(s, e);
    StepExtends(s, e);
    forall j: nat | j < |t.jobs| ensures HasRunOnce(t.jobs[j]) {
      if j < |s.jobs| { RunsOnce(s, e, j); } else { EntersUnbegun(s, e, t, j); }
    }
  }

  lemma EntersUnbegun(s: State, e: Event, t: State, j: nat)
    requires Extended(s, e, t) && |s.jobs| <= j < |t.jobs|
    ensures HasRunOnce(t.jobs[j])
  {
  }

  lemma InitUndisturbed(durable: bool, maxRetries: int, store: map<JobID, Status>)
    ensures UndisturbedInv(Init(durable, maxRetries, store))
  {
    InitInv(durable, maxRetries, store);
    hide Inv;
  }

  lemma UndisturbedReached(durable: bool, maxRetries: int, store: map<JobID, Status>, s: State)
    requires Undisturbed().Reaches(Init(durable, maxRetries, store), s)
    ensures UndisturbedInv(s)
  {
    InitUndisturbed(durable, maxRetries, store);
    hide UndisturbedInv, Enabled, Apply, Init;
    forall s, e | UndisturbedInv(s) && Undisturbed().Can(s, e) ensures UndisturbedInv(Undisturbed().next(s, e)) {
      StaysUndisturbed(s, e);
    }
    InvariantReached(Undisturbed(), s => UndisturbedInv(s), Init(durable, maxRetries, store), s);
  }

  /** As long as nobody calls CancelJob or Shutdown and no caller's context ends, a job
      that is past its handler has run it, exactly once, however the store behaves. */
  lemma UndisturbedJobsRun(durable: bool, maxRetries: int, store: map<JobID, Status>, s: State, j: nat)
    requires Undisturbed().Reaches(Init(durable, maxRetries, store), s)
    requires j < |s.jobs| && HandlerOver(s.jobs[j].stage)
    ensures s.jobs[j].handlerRuns == 1
  {
    UndisturbedReached(durable, maxRetries, store, s);
    hide CalmInv;
    assert HasRunOnce(s.jobs[j]);
  }

  // ----- runs on which nothing fails either -----

  /** The store answers with an error, an attempt meets an ended context, or a type has
      no handler. */
  predicate Fails(s: State, e: Event)
  {
    || (e.IoStep? && (e.outcome.Error? || e.outcome.ContextOver?))
    || (e.ControlStep? && s.controlPc.SubmitHandler? && !e.choice)
  }

  function Healthy(): Machine<State, Event>
  {
    Machine((s, e) => Enabled(s, e) && !Disturbs(e) && !Fails(s, e), (s, e) requires Enabled(s, e) => Apply(s, e))
  }

  predicate TakingBack(pc: IoPc, j: nat)
  {
    (pc.Delete? && pc.j == j) || (pc.CancelInfo? && pc.j == j) || (pc.Reply? && pc.j == j && !pc.ok)
  }

  /** The instance has not been taken back and is not about to be. */
  predicate Welcome(s: State, j: nat)
    requires j < |s.jobs|
  {
    && !s.jobs[j].stage.Rejected? && s.jobs[j].request.Some?
    && !TakingBack(s.ioPc, j) && (j in s.ioReply ==> s.ioReply[j])
  }

  /** The io task of the instance has written its record. */
  predicate PastCreate(s: State, j: nat)
    requires j < |s.jobs|
  {
    Started(s.jobs[j].stage) || s.ioPc == SecondCheck(j) || s.ioPc == Schedule(j)
  }

  /** At most one call has this ID. */
  ghost predicate OneCall(requests: seq<JobID>, id: JobID)
  {
    forall p, q :: 0 <= p < |requests| && 0 <= q < |requests| && requests[p] == id && requests[q] == id ==> p == q
  }

  /** How an ID fares that the store did not know and at most one call has. */
  ghost predicate Fares(s: State, id: JobID)
  {
    && (forall j :: 0 <= j < |s.jobs| && s.jobs[j].id == id ==> Welcome(s, j))
    && (forall q :: 0 <= q < |s.requests| && s.requests[q] == id && q in s.controlReply ==> s.controlReply[q])
    && (id in s.store ==> exists j :: 0 <= j < |s.jobs| && s.jobs[j].id == id && PastCreate(s, j))
  }

  ghost predicate HealthyInv(s: State, id: JobID)
  {
    CalmInv(s) && CallInv(s) && (OneCall(s.requests, id) ==> Fares(s, id))
  }

  /** Two instances of such an ID would be of the same call. */
  lemma OneInstance(s: State, id: JobID, j: nat, k: nat)
    requires Inv(s) && OneCall(s.requests, id) && Fares(s, id)
    requires j < |s.jobs| && k < |s.jobs| && s.jobs[j].id == id && s.jobs[k].id == id
    ensures j == k
  {
    assert Welcome(s, j) && Welcome(s, k);
    hide ActiveInv, NewestInv, JobInv, ControlInv, FinalizeInv, IoInv, LogInv, WriteInv, RecordInv, ReplyInv,
         PendingInv;
  }

  // why the io task would take an admission back

  predicate BackFor(s: State, o: Outcome, j: nat)
    requires j < |s.jobs|
  {
    || JobContextDone(s, j) || o.Error? || o.ContextOver?
    || (o.Exists? && s.jobs[j].id in s.store && !s.ioPc.SecondCheck? && !s.ioPc.Schedule?)
  }

  /** What a step of the io task does to the instance it is about. */
  predicate IoGoesWell(s: State, o: Outcome, t: State)
  {
    && (forall j: nat :: j < |s.jobs| && TakingBack(t.ioPc, j) && !TakingBack(s.ioPc, j) ==>
          PersistPc(s.ioPc) && s.ioPc.j == j && BackFor(s, o, j))
    && (forall j: nat :: j in t.ioReply ==>
          (j in s.ioReply && t.ioReply[j] == s.ioReply[j]) || t.ioReply[j] || TakingBack(s.ioPc, j))
    && (forall j: nat :: j < |s.jobs| && (s.ioPc == SecondCheck(j) || s.ioPc == Schedule(j)) ==>
          t.ioPc == Schedule(j) || JobContextDone(s, j) || (j < |t.jobs| && t.jobs[j].stage.Scheduled?))
    && (forall id: JobID :: id in t.store && id !in s.store ==>
          && Wrote(o) && s.ioPc.Create? && s.ioPc.j < |s.jobs| && s.jobs[s.ioPc.j].id == id
          && (o == Ok ==> t.ioPc == SecondCheck(s.ioPc.j)))
    && s.store.Keys <= t.store.Keys
  }

  lemma IoStepGoesWell(s: State, o: Outcome)
    requires IoEnabled(s, o)
    ensures IoGoesWell(s, o, IoNext(s, o))
  {
    hide CheckNext, CreateNext, DecideNext, AnswerNext, UpdateNext, IoGoesWell, IoEnabled;
    if s.ioPc.FinalDone? { DoneGoesWell(s, o); }
    else if Updating(s.ioPc) {
      AtUpdates(s, o);
      UpdateGoesWell(s, o);
    }
    else if s.ioPc.Create? { CreateGoesWell(s, o); }
    else if s.ioPc.Schedule? || s.ioPc.Delete? { DecideGoesWell(s, o); }
    else if s.ioPc.CancelInfo? || s.ioPc.Reply? { AnswerGoesWell(s, o); }
    else {
      AtCheck(s, o);
      CheckGoesWell(s, o);
    }
  }

  lemma AtUpdates(s: State, o: Outcome)
    requires IoEnabled(s, o) && Updating(s.ioPc) && !s.ioPc.FinalDone?
    ensures UpdateStep(s, o)
  {
  }

  lemma DoneGoesWell(s: State, o: Outcome)
    requires s.ioPc.FinalDone?
    ensures IoGoesWell(s, o, DoneNext(s))
  {
  }

  lemma UpdateGoesWell(s: State, o: Outcome)
    requires UpdateStep(s, o)
    ensures IoGoesWell(s, o, UpdateNext(s, o))
  {
    var t := UpdateNext(s, o);
    UpdateFrame(s, o);
    if Wrote(o) { UpdatesKnown(s, o); }
    assert t.ioReply == s.ioReply && t.jobs == s.jobs && !t.ioPc.Delete? && !t.ioPc.CancelInfo? && !t.ioPc.Reply?;
    assert t.store.Keys == s.store.Keys;
    hide UpdateNext, IoEnabled, Attempted;
  }

  lemma UpdatesKnown(s: State, o: Outcome)
    requires UpdateStep(s, o) && Wrote(o)
    ensures s.ioPc.j < |s.jobs| && s.jobs[s.ioPc.j].id in s.store
  {
  }

  lemma CreateGoesWell(s: State, o: Outcome)
    requires IoEnabled(s, o) && s.ioPc.Create?
    ensures IoGoesWell(s, o, CreateNext(s, o))
  {
  }

  lemma DecideGoesWell(s: State, o: Outcome)
    requires DecideStep(s, o)
    ensures IoGoesWell(s, o, DecideNext(s, o))
  {
    DecideFrame(s, o);
    hide DecideNext, IoEnabled;
  }

  lemma AnswerGoesWell(s: State, o: Outcome)
    requires s.ioPc.CancelInfo? || s.ioPc.Reply?
    ensures IoGoesWell(s, o, AnswerNext(s))
  {
  }

  lemma CheckGoesWell(s: State, o: Outcome)
    requires CheckStep(s, o)
    ensures IoGoesWell(s, o, CheckNext(s, o))
  {
  }

  // so it does not happen

  lemma Persists(s: State, j: nat)
    requires CalmInv(s) && PersistPc(s.ioPc) && s.ioPc.j == j
    ensures j < |s.jobs| && s.jobs[j].stage.Persisting? && !JobContextDone(s, j)
  {
    AtPersist(s);
    CalmContexts(s, j);
  }

  /** No reason comes up to take the instance back. */
  lemma NothingAgainst(s: State, o: Outcome, id: JobID, j: nat)
    requires CalmInv(s) && OneCall(s.requests, id) && Fares(s, id)
    requires PersistPc(s.ioPc) && s.ioPc.j == j < |s.jobs| && s.jobs[j].id == id
    requires !o.Error? && !o.ContextOver?
    ensures !BackFor(s, o, j)
  {
    Persists(s, j);
    if o.Exists? && id in s.store {
      var k: nat :| k < |s.jobs| && s.jobs[k].id == id && PastCreate(s, k);
      OneInstance(s, id, j, k);
    }
  }

  lemma IoKeepsWelcome(s: State, o: Outcome, id: JobID, j: nat)
    requires CalmInv(s) && OneCall(s.requests, id) && Fares(s, id) && Enabled(s, IoStep(o))
    requires j < |s.jobs| && s.jobs[j].id == id && !o.Error? && !o.ContextOver?
    ensures var t := Apply(s, IoStep(o)); !TakingBack(t.ioPc, j) && (j in t.ioReply ==> t.ioReply[j])
  {
    IoEnabledNow(s, o);
    IoApplies(s, o);
    hide Apply, Enabled, CalmInv, IoNext, IoEnabled;
    IoStepGoesWell(s, o);
    assert Welcome(s, j);
    hide BackFor;
    if TakingBack(IoNext(s, o).ioPc, j) {
      hide Fares;
      NothingAgainst(s, o, id, j);
    }
  }

  lemma ElseKeepsWelcome(s: State, e: Event, j: nat)
    requires Enabled(s, e) && !e.IoStep? && j < |s.jobs| && Welcome(s, j)
    ensures var t := Apply(s, e); !TakingBack(t.ioPc, j) && (j in t.ioReply ==> t.ioReply[j])
  {
    StepIoSide(s, e);
    hide Apply, Enabled;
  }

  lemma StaysAccepted(s: State, e: Event, j: nat)
    requires Inv(s) && Enabled(s, e) && j < |s.jobs| && !s.jobs[j].stage.Rejected?
    ensures var t := Apply(s, e);
            && j < |t.jobs| && t.jobs[j].request == s.jobs[j].request
            && (t.jobs[j].stage.Rejected? ==> TakingBack(t.ioPc, j))
  {
    hide Inv, Apply, Enabled;
    StepGoesOn(s, e, j);
  }

  lemma StaysWelcome(s: State, e: Event, id: JobID, j: nat)
    requires CalmInv(s) && OneCall(s.requests, id) && Fares(s, id)
    requires Enabled(s, e) && !Fails(s, e) && j < |s.jobs| && s.jobs[j].id == id
    ensures j < |Apply(s, e).jobs| && Welcome(Apply(s, e), j)
  {
    assert Welcome(s, j);
    hide Apply, Enabled, OneCall, Fares, Inv, NobodyCancels, CancelledArePast;
    StaysAccepted(s, e, j);
    if e.IoStep? { IoKeepsWelcome(s, e.outcome, id, j); } else { ElseKeepsWelcome(s, e, j); }
    hide TakingBack;
  }

  lemma EntersWelcome(s: State, e: Event, id: JobID, j: nat)
    requires CalmInv(s) && Fares(s, id) && Enabled(s, e)
    requires |s.jobs| <= j < |Apply(s, e).jobs| && Apply(s, e).jobs[j].id == id
    ensures Welcome(Apply(s, e), j)
  {
    var t := Apply(s, e);
    StepExtends(s, e);
    RecoversUnknown(s, e);
    ReplyIsKnown(s);
    EntersBeside(s, e);
    StepIoSide(s, e);
    hide CalmInv, Apply, Enabled;
    EntersForCall(s, e, t, id, j);
    StillElsewhere(s, e, t, j);
  }

  lemma EntersForCall(s: State, e: Event, t: State, id: JobID, j: nat)
    requires Extended(s, e, t) && |s.jobs| <= j < |t.jobs| && t.jobs[j].id == id && Fares(s, id)
    requires e.RecoverJob? ==> e.id in s.store && forall k :: 0 <= k < |s.jobs| ==> s.jobs[k].id != e.id
    ensures j == |s.jobs| && !t.jobs[j].stage.Rejected? && t.jobs[j].request.Some?
  {
    hide Welcome, PastCreate;
  }

  lemma StillElsewhere(s: State, e: Event, t: State, j: nat)
    requires IoSide(s, e, t) && !TakingBack(s.ioPc, j) && j !in s.ioReply
    ensures !TakingBack(t.ioPc, j) && j !in t.ioReply
  {
  }

  /** A new instance comes with a step that is none of the io task. */
  lemma EntersBeside(s: State, e: Event)
    requires Enabled(s, e) && |Apply(s, e).jobs| > |s.jobs|
    ensures !e.IoStep?
  {
    StepExtends(s, e);
    if e.IoStep? {
      IoEnabledNow(s, e.outcome);
      IoApplies(s, e.outcome);
      hide Apply, Enabled;
      IoKeepsJobs(s, e.outcome);
    }
  }

  lemma IoKeepsJobs(s: State, o: Outcome)
    requires IoEnabled(s, o)
    ensures |IoNext(s, o).jobs| == |s.jobs|
  {
    hide Attempted, UpdateNext, CreateNext, DecideNext, CheckNext;
    if Updating(s.ioPc) && !s.ioPc.FinalDone? { UpdateFrame(s, o); }
    else if s.ioPc.Create? { CreateFrame(s, o); }
    else if s.ioPc.Schedule? || s.ioPc.Delete? { DecideFrame(s, o); }
    else if !s.ioPc.FinalDone? && !s.ioPc.CancelInfo? && !s.ioPc.Reply? {
      AtCheck(s, o);
      CheckFrame(s, o);
    }
  }

  lemma RecoversUnknown(s: State, e: Event)
    requires Enabled(s, e)
    ensures e.RecoverJob? ==> e.id in s.store && forall j :: 0 <= j < |s.jobs| ==> s.jobs[j].id != e.id
  {
  }

  lemma ReplyIsKnown(s: State)
    requires Inv(s)
    ensures TakingBack(s.ioPc, |s.jobs|) ==> false
    ensures |s.jobs| !in s.ioReply
  {
    hide ActiveInv, NewestInv, JobInv, ControlInv, FinalizeInv, RequestInv, LogInv, WriteInv, RecordInv, ReplyInv,
         PendingInv;
  }

  lemma NotYetActive(s: State, id: JobID, q: nat)
    requires Inv(s) && OneCall(s.requests, id) && Fares(s, id)
    requires s.controlPc == SubmitLoad(q) && q < |s.requests| && s.requests[q] == id
    ensures id !in s.activeJobs
  {
    hide NewestInv, JobInv, FinalizeInv, IoInv, LogInv, WriteInv, RecordInv, ReplyInv, PendingInv;
  }

  /** No reason comes up to answer the call with an error. */
  lemma NoErrorFor(s: State, choice: bool, id: JobID, q: nat)
    requires CalmInv(s) && OneCall(s.requests, id) && Fares(s, id)
    requires AtCall(s.controlPc, q) && q < |s.requests| && s.requests[q] == id
    requires s.controlPc.SubmitHandler? ==> choice
    ensures !ErrorFor(s, choice)
  {
    hide NewestInv, JobInv, FinalizeInv, IoInv, LogInv, WriteInv, RecordInv, ReplyInv, PendingInv;
    if s.controlPc.SubmitLoad? {
      NotYetActive(s, id, q);
    } else if s.controlPc.SubmitAwait? {
      assert s.jobs[s.controlPc.j].request == Some(q);
      assert Welcome(s, s.controlPc.j);
    }
  }

  lemma StaysGranted(s: State, e: Event, id: JobID, q: nat)
    requires CalmInv(s) && CallInv(s) && OneCall(s.requests, id) && Fares(s, id) && Enabled(s, e) && !Fails(s, e)
    requires q < |Apply(s, e).requests| && Apply(s, e).requests[q] == id && q in Apply(s, e).controlReply
    ensures Apply(s, e).controlReply[q]
  {
    StepControlSide(s, e);
    hide CalmInv, CallInv, Fares, OneCall;
    if q in s.controlReply {
      AnswerIsKept(s, e, q);
      AnswerOf(s, q);
      hide Apply, Enabled, Joined;
      assert s.controlReply[q] by { GrantedSoFar(s, id, q); }
    } else {
      CallInvMeans(s);
      BecomesAnswered(s, e, q);
      AtCallAlone(s, q);
      if e.ControlStep? {
        ControlStepProgresses(s, e.choice);
        NoErrorFor(s, e.choice, id, q);
      }
      hide Apply, Enabled, Joined, ErrorFor;
    }
  }

  lemma GrantedSoFar(s: State, id: JobID, q: nat)
    requires Fares(s, id) && q < |s.requests| && s.requests[q] == id && q in s.controlReply
    ensures s.controlReply[q]
  {
  }

  lemma StartedStays(s: State, e: Event, j: nat)
    requires Inv(s) && Enabled(s, e) && j < |s.jobs| && Started(s.jobs[j].stage)
    ensures j < |Apply(s, e).jobs| && Started(Apply(s, e).jobs[j].stage)
  {
    hide Inv, Apply, Enabled;
    StepGoesOn(s, e, j);
  }

  lemma StaysPastCreate(s: State, e: Event, j: nat)
    requires CalmInv(s) && Enabled(s, e) && j < |s.jobs| && PastCreate(s, j)
    ensures j < |Apply(s, e).jobs| && PastCreate(Apply(s, e), j)
  {
    if Started(s.jobs[j].stage) {
      StartedStays(s, e, j);
    } else {
      Persists(s, j);
      hide CalmInv;
      StepExtends(s, e);
      if e.IoStep? {
        IoEnabledNow(s, e.outcome);
        IoApplies(s, e.outcome);
        IoStepGoesWell(s, e.outcome);
      } else {
        StepIoSide(s, e);
      }
      hide Apply, Enabled, IoNext, JobContextDone;
    }
  }

  lemma StaysKnown(s: State, e: Event, id: JobID)
    requires CalmInv(s) && Fares(s, id) && Enabled(s, e) && !Fails(s, e) && id in Apply(s, e).store
    ensures var t := Apply(s, e); exists j :: 0 <= j < |t.jobs| && t.jobs[j].id == id && PastCreate(t, j)
  {
    if id in s.store {
      var k: nat :| k < |s.jobs| && s.jobs[k].id == id && PastCreate(s, k);
      StaysPastCreate(s, e, k);
      JobKeepsRequest(s, e, k);
    } else {
      BecomesKnown(s, e, id);
    }
  }

  lemma BecomesKnown(s: State, e: Event, id: JobID)
    requires CalmInv(s) && Enabled(s, e) && !Fails(s, e) && id in Apply(s, e).store && id !in s.store
    ensures var t := Apply(s, e); exists j :: 0 <= j < |t.jobs| && t.jobs[j].id == id && PastCreate(t, j)
  {
    hide CalmInv;
    if e.IoStep? {
      IoEnabledNow(s, e.outcome);
      IoApplies(s, e.outcome);
      IoStepGoesWell(s, e.outcome);
      JobKeepsRequestNow(s, e);
    } else {
      StepIoSide(s, e);
    }
    hide Apply, Enabled, IoNext;
    assert e.IoStep?;
    assert PastCreate(Apply(s, e), s.ioPc.j);
  }

  lemma JobKeepsRequestNow(s: State, e: Event)
    requires CalmInv(s) && Enabled(s, e) && s.ioPc.Create? && s.ioPc.j < |s.jobs|
    ensures var t := Apply(s, e); s.ioPc.j < |t.jobs| && t.jobs[s.ioPc.j].id == s.jobs[s.ioPc.j].id
  {
    hide Inv, Apply, Enabled;
    JobKeepsRequest(s, e, s.ioPc.j);
  }

  lemma StaysFaring(s: State, e: Event, id: JobID)
    requires CalmInv(s) && CallInv(s) && OneCall(s.requests, id) && Fares(s, id)
    requires Enabled(s, e) && !Disturbs(e) && !Fails(s, e)
    ensures Fares(Apply(s, e), id)
  {
    var t := Apply(s, e);
    hide CalmInv, CallInv, Apply, Enabled, OneCall, Fares, Welcome, PastCreate, Fails;
    forall j: nat | j < |t.jobs| && t.jobs[j].id == id ensures Welcome(t, j) {
      if j < |s.jobs| {
        IdStays(s, e, j);
        StaysWelcome(s, e, id, j);
      } else {
        EntersWelcome(s, e, id, j);
      }
    }
    forall q: nat | q < |t.requests| && t.requests[q] == id && q in t.controlReply ensures t.controlReply[q] {
      StaysGranted(s, e, id, q);
    }
    if id in t.store {
      StaysKnown(s, e, id);
    }
    MeansFares(t, id);
  }

  lemma MeansFares(t: State, id: JobID)
    requires forall j: nat :: j < |t.jobs| && t.jobs[j].id == id ==> Welcome(t, j)
    requires forall q: nat :: q < |t.requests| && t.requests[q] == id && q in t.controlReply ==> t.controlReply[q]
    requires id in t.store ==> exists j :: 0 <= j < |t.jobs| && t.jobs[j].id == id && PastCreate(t, j)
    ensures Fares(t, id)
  {
    hide Welcome, PastCreate;
  }

  lemma IdStays(s: State, e: Event, j: nat)
    requires CalmInv(s) && Enabled(s, e) && j < |s.jobs|
    ensures j < |Apply(s, e).jobs| && Apply(s, e).jobs[j].id == s.jobs[j].id
  {
    hide Inv, Apply, Enabled;
    JobKeepsRequest(s, e, j);
  }

  lemma OneCallBefore(s: State, e: Event, id: JobID)
    requires Enabled(s, e) && OneCall(Apply(s, e).requests, id)
    ensures OneCall(s.requests, id)
  {
    StepControlSide(s, e);
    hide Apply, Enabled, Joined;
    assert forall q :: 0 <= q < |s.requests| ==> Apply(s, e).requests[q] == s.requests[q];
  }

  lemma StaysHealthy(s: State, e: Event, id: JobID)
    requires HealthyInv(s, id) && Enabled(s, e) && !Disturbs(e) && !Fails(s, e)
    ensures HealthyInv(Apply(s, e), id)
  {
    hide CalmInv, CallInv, Apply, Enabled, OneCall, Fares, Fails;
    StaysCalm(s, e);
    StepKeepsCalls(s, e);
    if OneCall(Apply(s, e).requests, id) {
      OneCallBefore(s, e, id);
      StaysFaring(s, e, id);
    }
  }

  ghost predicate HealthyRun(s: State, id: JobID)
  {
    HealthyInv(s, id) && UndisturbedInv(s) && Reachable(s)
  }

  lemma StaysHealthyRun(s: State, e: Event, id: JobID)
    requires HealthyRun(s, id) && Enabled(s, e) && !Disturbs(e) && !Fails(s, e)
    ensures HealthyRun(Apply(s, e), id)
  {
    hide HealthyInv, UndisturbedInv, Reachable, Apply, Enabled, Fails;
    StaysHealthy(s, e, id);
    StaysUndisturbed(s, e);
    Next(s, e);
  }

  lemma InitHealthy(durable: bool, maxRetries: int, store: map<JobID, Status>, id: JobID)
    requires id !in store
    ensures HealthyRun(Init(durable, maxRetries, store), id)
  {
    hide CallInv, CalmInv, Fares, UndisturbedInv, OneCall, Reachable;
    var s := Init(durable, maxRetries, store);
    NoneFares(s, id);
    InitUndisturbed(durable, maxRetries, store);
    InitCalls(durable, maxRetries, store);
    StartsReachable(durable, maxRetries, store);
    hide Init;
    UndisturbedIsCalm(s);
  }

  lemma UndisturbedIsCalm(s: State)
    requires UndisturbedInv(s)
    ensures CalmInv(s)
  {
    hide CalmInv;
  }

  lemma StartsReachable(durable: bool, maxRetries: int, store: map<JobID, Status>)
    ensures Reachable(Init(durable, maxRetries, store))
  {
    hide Init, Enabled, Apply;
    ReachesItself(Manager(), Init(durable, maxRetries, store));
  }

  lemma NoneFares(s: State, id: JobID)
    requires s.jobs == [] && s.requests == [] && id !in s.store
    ensures Fares(s, id)
  {
  }

  lemma HealthyReached(durable: bool, maxRetries: int, store: map<JobID, Status>, id: JobID, s: State)
    requires id !in store && Healthy().Reaches(Init(durable, maxRetries, store), s)
    ensures HealthyRun(s, id)
  {
    InitHealthy(durable, maxRetries, store, id);
    hide HealthyRun, Enabled, Apply, Init, Fails;
    forall s, e | HealthyRun(s, id) && Healthy().Can(s, e) ensures HealthyRun(Healthy().next(s, e), id) {
      StaysHealthyRun(s, e, id);
    }
    InvariantReached(Healthy(), s => HealthyRun(s, id), Init(durable, maxRetries, store), s);
  }

  /** When nobody interferes, the store answers and the type has a handler, the only call
      for an ID that the store did not hold is answered with nil, and where the run comes
      to rest its job has run its handler, once, and is finalized. */
  lemma HealthyJobRunsToItsEnd(durable: bool, maxRetries: int, store: map<JobID, Status>, s: State, q: nat)
    requires Healthy().Reaches(Init(durable, maxRetries, store), s)
    requires q < |s.requests| && s.requests[q] !in store && OneCall(s.requests, s.requests[q])
    ensures q in s.controlReply ==> s.controlReply[q]
    ensures Quiescent(s) ==>
              && q in s.controlReply
              && exists j :: && 0 <= j < |s.jobs| && s.jobs[j].request == Some(q) && s.jobs[j].stage.Closed?
                             && s.jobs[j].handlerRuns == 1
  {
    var id := s.requests[q];
    HealthyReached(durable, maxRetries, store, id, s);
    hide CalmInv, CallInv, Reachable, OneCall, Quiescent, UndisturbedInv, Healthy, Init;
    if q in s.controlReply {
      GrantedSoFar(s, id, q);
    }
    hide Fares;
    if Quiescent(s) {
      EveryCallIsAnswered(s, q);
      NothingLeftBehind(s);
      GrantedSoFar(s, id, q);
      var j := GrantedJobHasRun(s, q);
    }
  }

  lemma GrantedJobHasRun(s: State, q: nat) returns (j: nat)
    requires Reachable(s) && UndisturbedInv(s) && q in s.controlReply && s.controlReply[q]
    requires forall j :: 0 <= j < |s.jobs| ==> Settled(s.jobs[j].stage)
    ensures j < |s.jobs| && s.jobs[j].request == Some(q) && s.jobs[j].stage.Closed? && s.jobs[j].handlerRuns == 1
  {
    hide Reachable, Inv, CalmInv;
    ReachableInv(s);
    j := GrantedJob(s, q);
    assert HasRunOnce(s.jobs[j]);
  }

  lemma GrantedJob(s: State, q: nat) returns (j: nat)
    requires Inv(s) && q in s.controlReply && s.controlReply[q]
    ensures j < |s.jobs| && s.jobs[j].request == Some(q) && Started(s.jobs[j].stage)
  {
    hide ActiveInv, NewestInv, JobInv, ControlInv, FinalizeInv, RequestInv, LogInv, WriteInv, RecordInv, PendingInv;
    assert Kept(s, q);
    j :| Acknowledged(s, q, j);
  }

  // ----- recovered jobs -----

  ghost predicate TakenUp(s: State, id: JobID, j: nat, found: bool)
  {
    && Inv(s) && j < |s.jobs| && s.jobs[j].id == id
    && (if found then Started(s.jobs[j].stage) else s.jobs[j].stage.Unrunnable?)
  }

  lemma StaysTakenUp(s: State, e: Event, id: JobID, j: nat, found: bool)
    requires TakenUp(s, id, j, found) && Enabled(s, e)
    ensures TakenUp(Apply(s, e), id, j, found)
  {
    hide Inv, Apply, Enabled;
    StepKeepsInv(s, e);
    StepGoesOn(s, e, j);
  }

  lemma TakenUpReached(t: State, u: State, id: JobID, j: nat, found: bool)
    requires TakenUp(t, id, j, found) && Manager().Reaches(t, u)
    ensures TakenUp(u, id, j, found)
  {
    hide TakenUp, Enabled, Apply;
    forall u, e | TakenUp(u, id, j, found) && Enabled(u, e) ensures TakenUp(Apply(u, e), id, j, found) {
      StaysTakenUp(u, e, id, j, found);
    }
    InvariantReached(Manager(), u => TakenUp(u, id, j, found), t, u);
  }

  /** A recovered record is taken up: with a handler it is scheduled, and where the run
      comes to rest it is finalized, its handler run or its context ended; without one
      it is never run, and its FAILED write is with the io runner or done. */
  lemma RecoveredJobIsTakenUp(s: State, id: JobID, found: bool, t: State, u: State)
    requires Reachable(s) && Took(s, RecoverJob(id, found), t) && Manager().Reaches(t, u)
    ensures var j := |s.jobs|;
            && j < |u.jobs| && u.jobs[j].id == id
            && (found ==> Started(u.jobs[j].stage))
            && (!found ==> u.jobs[j].stage.Unrunnable? && SetFinal(j, FAILED, false) in u.io.Log())
            && (found && Quiescent(u) ==>
                  u.jobs[j].stage.Closed? && (u.jobs[j].handlerRuns == 1 || u.jobs[j].stage.status == CANCELED))
  {
    var j := |s.jobs|;
    RecoversOne(s, id, found, t);
    ReachableFurther(s, RecoverJob(id, found), t, u);
    hide Reachable, Took, Quiescent, Inv, FinalInv;
    TakenUpReached(t, u, id, j, found);
    if found {
      if Quiescent(u) {
        NothingLeftBehind(u);
        HandlerRunsUnlessCancelled(u, j);
      }
    } else {
      ReachableWrites(u);
    }
  }

  lemma RecoversOne(s: State, id: JobID, found: bool, t: State)
    requires Reachable(s) && Took(s, RecoverJob(id, found), t)
    ensures TakenUp(t, id, |s.jobs|, found)
  {
    hide Reachable, Inv;
    ReachableInv(s);
    StepKeepsInv(s, RecoverJob(id, found));
    StepExtends(s, RecoverJob(id, found));
    hide Apply, Enabled;
  }

  lemma ReachableFurther(s: State, e: Event, t: State, u: State)
    requires Reachable(s) && Took(s, e, t) && Manager().Reaches(t, u)
    ensures Reachable(u)
  {
    hide Enabled, Apply, Init;
    var durable, maxRetries, store :| Manager().Reaches(Init(durable, maxRetries, store), s);
    ReachesNext(Manager(), Init(durable, maxRetries, store), s, e);
    ReachesFurther(Manager(), Init(durable, maxRetries, store), t, u);
  }
}
