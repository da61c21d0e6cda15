/** What the callers of SubmitJob, CancelJob and Shutdown may rely on
    (job/job_manager.go): each call is answered, an error means that nothing was
    scheduled, and a cancellation ends the context of the job it names. */
module JobManagerCalls {
  import opened Runs
  import opened FifoRunner
  import opened JobManagers
  import opened JobManagerInvariant
  import opened JobManagerOutcomes
  import opened JobManagerRuns

  // ----- the control runner's side of a step -----

  /** What the event posts to the control runner. */
  predicate Joined(s: State, e: Event, waiting: seq<ControlTask>)
  {
    if e.PostSubmit? then waiting == s.control.waiting + [Submit(|s.requests|)]
    else if e.CancelCall? then waiting == s.control.waiting + [Cancel(e.id)]
    else if e.PostCancelAll? then waiting == s.control.waiting + [CancelAll]
    else if e.ExecReport? then
      |waiting| == |s.control.waiting| + 1 && s.control.waiting == waiting[..|s.control.waiting|]
      && waiting[|s.control.waiting|].Finalize?
    else waiting == s.control.waiting
  }

  predicate ControlSide(s: State, e: Event, t: State)
  {
    && (if e.ControlBegin? then
          CanBegin(s.control) && t.control == Begin(s.control) && t.controlPc == ControlStart(s.control.waiting[0])
        else if e.ControlEnd? then
          s.controlPc.ControlOver? && s.control.current.Some? && t.control == End(s.control) && t.controlPc.NoControl?
        else
          && t.control == s.control.(waiting := t.control.waiting) && Joined(s, e, t.control.waiting)
          && (!e.ControlStep? && !e.CancelOne? ==> t.controlPc == s.controlPc))
    && (!e.ControlStep? ==> t.controlReply == s.controlReply)
    && t.requests == (if e.PostSubmit? then s.requests + [e.id] else s.requests)
    && (e.Receive? ==> e.q in s.controlReply && t.returned == s.returned[e.q := s.controlReply[e.q]])
    && (e.GiveUp? ==> e.q in s.contextDone && t.returned == s.returned[e.q := false])
    && (!e.Receive? && !e.GiveUp? ==> t.returned == s.returned)
    && t.contextDone == (if e.EndContext? then s.contextDone + {e.q} else s.contextDone)
  }

  lemma StepControlSide(s: State, e: Event)
    requires Enabled(s, e)
    ensures ControlSide(s, e, Apply(s, e))
  {
    hide ExecNext, ClientNext, ShutdownNext, RunnerNext, IoNext, SubmitNext, FinishNext, CancelOneNext, ExecEnabled,
         ClientEnabled, ShutdownEnabled, RunnerEnabled, ControlEnabled, IoEnabled, ControlSide;
    if IsExec(e) { ExecSide(s, e); }
    else if IsClient(e) { ClientSide(s, e); }
    else if IsShutdown(e) { ShutdownSide(s, e); }
    else if IsRunner(e) { TurnSide(s, e); }
    else if e.CancelOne? { CancelOneSide(s, e); }
    else if e.RecoverJob? { RecoverSide(s, e); }
    else if e.IoStep? { IoSide(s, e); }
    else if Submitting(s.controlPc) { SubmitSide(s, e); }
    else {
      ChoiceIsFree(s, e.choice);
      FinishSide(s, e);
    }
  }

  lemma ExecSide(s: State, e: Event)
    requires IsExec(e) && ExecEnabled(s, e)
    ensures ControlSide(s, e, ExecNext(s, e))
  {
  }

  lemma ClientSide(s: State, e: Event)
    requires IsClient(e) && ClientEnabled(s, e)
    ensures ControlSide(s, e, ClientNext(s, e))
  {
  }

  lemma ShutdownSide(s: State, e: Event)
    requires IsShutdown(e) && ShutdownEnabled(s, e)
    ensures ControlSide(s, e, ShutdownNext(s, e))
  {
  }

  lemma TurnSide(s: State, e: Event)
    requires IsRunner(e) && RunnerEnabled(s, e)
    ensures ControlSide(s, e, RunnerNext(s, e))
  {
  }

  lemma CancelOneSide(s: State, e: Event)
    requires e.CancelOne? && s.controlPc.CancelEach?
    ensures ControlSide(s, e, CancelOneNext(s, e.id))
  {
  }

  lemma RecoverSide(s: State, e: Event)
    requires e.RecoverJob?
    ensures ControlSide(s, e, RecoverNext(s, e.id, e.found))
  {
  }

  lemma IoSide(s: State, e: Event)
    requires e.IoStep? && IoEnabled(s, e.outcome)
    ensures ControlSide(s, e, IoNext(s, e.outcome))
  {
    hide Attempted, UpdateNext, CreateNext, DecideNext, AnswerNext, CheckNext;
    var o := e.outcome;
    if Updating(s.ioPc) && !s.ioPc.FinalDone? { UpdateFrame(s, o); }
    else if s.ioPc.Create? { CreateFrame(s, o); }
    else if s.ioPc.Schedule? || s.ioPc.Delete? { DecideFrame(s, o); }
    else if s.ioPc.CancelInfo? || s.ioPc.Reply? { AnswerSide(s, e); }
    else if !s.ioPc.FinalDone? {
      AtCheck(s, o);
      CheckFrame(s, o);
    }
  }

  lemma AnswerSide(s: State, e: Event)
    requires e.IoStep? && (s.ioPc.CancelInfo? || s.ioPc.Reply?)
    ensures ControlSide(s, e, AnswerNext(s))
  {
  }

  lemma SubmitSide(s: State, e: Event)
    requires e.ControlStep? && Submitting(s.controlPc) && ControlEnabled(s, e.choice)
    ensures ControlSide(s, e, SubmitNext(s, e.choice))
  {
    hide LookNext;
    if !s.controlPc.SubmitStore? && !s.controlPc.SubmitPost? {
      LookFrame(s, e.choice);
    }
  }

  lemma FinishSide(s: State, e: Event)
    requires e.ControlStep? && !Submitting(s.controlPc) && ControlEnabled(s, true)
    ensures ControlSide(s, e, FinishNext(s))
  {
    hide CancelNext, RemoveNext, FinalPostNext, MarkNext, ControlSide;
    if Cancelling(s.controlPc) { CancelSide(s, e); }
    else if s.controlPc.FinalLoad? { RemoveSide(s, e); }
    else { FinalSide(s, e); }
  }

  lemma CancelSide(s: State, e: Event)
    requires e.ControlStep? && Cancelling(s.controlPc)
    ensures ControlSide(s, e, CancelNext(s))
  {
    hide CancelNext;
    CancelFrame(s);
  }

  lemma RemoveSide(s: State, e: Event)
    requires e.ControlStep? && s.controlPc.FinalLoad? && ControlEnabled(s, true)
    ensures ControlSide(s, e, RemoveNext(s))
  {
  }

  lemma FinalSide(s: State, e: Event)
    requires e.ControlStep?
    ensures s.controlPc.FinalPost? && s.controlPc.j < |s.jobs| ==> ControlSide(s, e, FinalPostNext(s))
    ensures s.controlPc.FinalCancel? || s.controlPc.FinalAdd? ==> ControlSide(s, e, MarkNext(s))
  {
  }

  /** The control task of a call is at work on it. */
  predicate AtCall(pc: ControlPc, q: nat) { Submitting(pc) && pc.q == q }

  /** Why a call is answered with an error. */
  predicate ErrorFor(s: State, choice: bool)
    requires Submitting(s.controlPc)
  {
    match s.controlPc
    case SubmitLoad(q) => q < |s.requests| && s.requests[q] in s.activeJobs
    case SubmitHandler(q) => !choice
    case SubmitAwait(q, j) => q in s.contextDone || (j in s.ioReply && !s.ioReply[j])
    case _ => false
  }

  /** A control step stays with its call or answers it. */
  predicate Progresses(s: State, choice: bool, t: State)
  {
    if Submitting(s.controlPc) then
      var q := s.controlPc.q;
      || (AtCall(t.controlPc, q) && t.controlReply == s.controlReply
          && (s.controlPc.SubmitLoad? || s.controlPc.SubmitHandler? ==> !ErrorFor(s, choice)))
      || (t.controlPc.ControlOver? && t.controlReply == s.controlReply[q := false] && ErrorFor(s, choice))
      || (t.controlPc.ControlOver? && t.controlReply == s.controlReply[q := true]
          && s.controlPc.SubmitAwait? && s.controlPc.j in s.ioReply && s.ioReply[s.controlPc.j])
    else !Submitting(t.controlPc) && t.controlReply == s.controlReply
         && (Cancelling(t.controlPc) ==> Cancelling(s.controlPc))
  }

  lemma ControlStepProgresses(s: State, choice: bool)
    requires Enabled(s, ControlStep(choice))
    ensures Progresses(s, choice, Apply(s, ControlStep(choice)))
  {
    hide SubmitNext, FinishNext, ControlEnabled, Progresses;
    if Submitting(s.controlPc) {
      SubmitProgresses(s, choice);
    } else {
      ChoiceIsFree(s, choice);
      FinishProgresses(s, choice);
    }
  }

  lemma SubmitProgresses(s: State, choice: bool)
    requires Submitting(s.controlPc) && ControlEnabled(s, choice)
    ensures Progresses(s, choice, SubmitNext(s, choice))
  {
    hide LookNext, AdmitNext, HandOverNext, Progresses;
    if s.controlPc.SubmitStore? || s.controlPc.SubmitPost? {
      AdmissionProgresses(s, choice);
    } else {
      LookProgresses(s, choice);
    }
  }

  lemma AdmissionProgresses(s: State, choice: bool)
    ensures s.controlPc.SubmitStore? && s.controlPc.q < |s.requests| ==> Progresses(s, choice, AdmitNext(s))
    ensures s.controlPc.SubmitPost? && s.controlPc.j < |s.jobs| ==> Progresses(s, choice, HandOverNext(s))
  {
  }

  lemma LookProgresses(s: State, choice: bool)
    requires LookStep(s, choice)
    ensures Progresses(s, choice, LookNext(s, choice))
  {
    hide LookNext, Progresses;
    if s.controlPc.SubmitAwait? { AwaitProgresses(s, choice); } else { TestProgresses(s, choice); }
  }

  lemma AwaitProgresses(s: State, choice: bool)
    requires LookStep(s, choice) && s.controlPc.SubmitAwait?
    ensures Progresses(s, choice, LookNext(s, choice))
  {
  }

  lemma TestProgresses(s: State, choice: bool)
    requires LookStep(s, choice) && !s.controlPc.SubmitAwait?
    ensures Progresses(s, choice, LookNext(s, choice))
  {
  }

  lemma FinishProgresses(s: State, choice: bool)
    requires !Submitting(s.controlPc) && ControlEnabled(s, true)
    ensures Progresses(s, choice, FinishNext(s))
  {
    hide CancelNext, RemoveNext, FinalPostNext, MarkNext;
    if Cancelling(s.controlPc) { CancelFrame(s); }
    else if s.controlPc.FinalLoad? { RemoveProgresses(s); }
    else { FinalProgresses(s); }
  }

  lemma RemoveProgresses(s: State)
    requires s.controlPc.FinalLoad? && ControlEnabled(s, true)
    ensures !Submitting(RemoveNext(s).controlPc) && RemoveNext(s).controlReply == s.controlReply
    ensures !Cancelling(RemoveNext(s).controlPc)
  {
    var t := RemoveNext(s);
    assert t.(jobs := s.jobs, activeJobs := s.activeJobs, controlPc := s.controlPc) == s;
    assert t.controlPc.ControlOver? || t.controlPc.FinalCancel?;
    hide RemoveNext, ControlEnabled;
  }

  lemma FinalProgresses(s: State)
    ensures s.controlPc.FinalPost? && s.controlPc.j < |s.jobs| ==>
              && !Submitting(FinalPostNext(s).controlPc) && FinalPostNext(s).controlReply == s.controlReply
              && !Cancelling(FinalPostNext(s).controlPc)
    ensures s.controlPc.FinalCancel? || s.controlPc.FinalAdd? ==>
              && !Submitting(MarkNext(s).controlPc) && MarkNext(s).controlReply == s.controlReply
              && !Cancelling(MarkNext(s).controlPc)
  {
  }

  // ----- every call is answered, once -----

  /** The answer to call q is b, for good. */
  predicate Answered(s: State, q: nat, b: bool)
  {
    && q < |s.requests| && q in s.controlReply && s.controlReply[q] == b
    && Submit(q) !in s.control.waiting && !AtCall(s.controlPc, q)
    && (s.control.current == Some(Submit(q)) ==> s.controlPc.ControlOver?)
  }

  lemma NotPosted(s: State, e: Event, t: State, q: nat)
    requires ControlSide(s, e, t) && Submit(q) !in s.control.waiting && q < |s.requests|
    ensures Submit(q) !in t.control.waiting && q < |t.requests|
  {
    if e.ControlBegin? {
      assert forall i :: 0 <= i < |t.control.waiting| ==> t.control.waiting[i] == s.control.waiting[i + 1];
    } else if e.ExecReport? {
      assert t.control.waiting == s.control.waiting + [t.control.waiting[|s.control.waiting|]];
    }
  }

  /** A step of the control task of another call, or of none. */
  lemma ElsewhereAtWork(s: State, choice: bool, q: nat)
    requires Enabled(s, ControlStep(choice)) && !AtCall(s.controlPc, q) && q in s.controlReply
    requires s.control.current == Some(Submit(q)) ==> s.controlPc.ControlOver?
    ensures var t := Apply(s, ControlStep(choice));
            !AtCall(t.controlPc, q) && q in t.controlReply && t.controlReply[q] == s.controlReply[q]
    ensures !s.controlPc.ControlOver?
  {
    ControlStepProgresses(s, choice);
    AtWork(s, choice);
    hide Enabled, Apply, ErrorFor;
  }

  lemma AtWork(s: State, choice: bool)
    requires Enabled(s, ControlStep(choice))
    ensures !s.controlPc.ControlOver? && !s.controlPc.NoControl?
  {
  }

  /** Outside its own task nothing brings the control runner to call q. */
  lemma NotAtCall(s: State, e: Event, q: nat)
    requires q in s.controlReply && Answered(s, q, s.controlReply[q]) && Enabled(s, e)
    ensures var t := Apply(s, e);
            && !AtCall(t.controlPc, q) && q in t.controlReply && t.controlReply[q] == s.controlReply[q]
            && (t.control.current == Some(Submit(q)) ==> t.controlPc.ControlOver?)
  {
    StepControlSide(s, e);
    if e.ControlStep? {
      hide Apply, Enabled, Joined;
      ElsewhereAtWork(s, e.choice, q);
    } else {
      if e.CancelOne? { StaysCancelling(s, e.id); }
      if e.ControlBegin? { assert s.control.waiting[0] in s.control.waiting; }
      hide Apply, Enabled, Joined;
    }
  }

  lemma StaysAnswered(s: State, e: Event, q: nat, b: bool)
    requires Answered(s, q, b) && Enabled(s, e)
    ensures Answered(Apply(s, e), q, b)
  {
    NotAtCall(s, e, q);
    StepControlSide(s, e);
    hide Apply, Enabled, ControlSide;
    NotPosted(s, e, Apply(s, e), q);
  }

  lemma StaysCancelling(s: State, id: JobID)
    requires Enabled(s, CancelOne(id))
    ensures s.controlPc.CancelEach? && Apply(s, CancelOne(id)).controlPc == CancelEach(s.controlPc.left - {id})
  {
    hide ExecNext, ClientNext, ShutdownNext, RunnerNext, RecoverNext, IoNext, SubmitNext, FinishNext;
  }

  /** A call is on its way to its answer. */
  predicate OnItsWay(s: State, q: nat) { Submit(q) in s.control.waiting || AtCall(s.controlPc, q) }

  /** What SubmitJob has returned, if anything, is its answer, or its context has ended. */
  predicate ReturnedRightly(s: State, q: nat)
  {
    q in s.returned ==> q in s.contextDone || (q in s.controlReply && s.returned[q] == s.controlReply[q])
  }

  ghost predicate CallInv(s: State)
  {
    && Inv(s)
    && (forall q :: 0 <= q < |s.requests| ==> q in s.controlReply || OnItsWay(s, q))
    && (forall q :: q in s.controlReply ==> Answered(s, q, s.controlReply[q]))
    && (forall q :: q in s.returned ==> ReturnedRightly(s, q))
  }

  lemma AtCallAlone(s: State, q: nat)
    requires Inv(s) && AtCall(s.controlPc, q)
    ensures s.control.current == Some(Submit(q)) && Submit(q) !in s.control.waiting && q < |s.requests|
  {
    hide ActiveInv, NewestInv, JobInv, FinalizeInv, IoInv, LogInv, WriteInv, RecordInv, ReplyInv, PendingInv;
    assert s.control.current == Some(Submit(q));
    hide ControlInv;
  }

  lemma StaysOnItsWay(s: State, e: Event, q: nat)
    requires Inv(s) && Enabled(s, e) && OnItsWay(s, q)
    ensures var t := Apply(s, e); OnItsWay(t, q) || q in t.controlReply
  {
    StepControlSide(s, e);
    hide Inv, ControlSide, Enabled, Apply;
    if Submit(q) in s.control.waiting {
      StaysWaiting(s, e, Apply(s, e), q);
    } else {
      StaysAtCall(s, e, q);
    }
  }

  lemma StaysAtCall(s: State, e: Event, q: nat)
    requires Inv(s) && Enabled(s, e) && AtCall(s.controlPc, q)
    ensures var t := Apply(s, e); AtCall(t.controlPc, q) || q in t.controlReply
  {
    StepControlSide(s, e);
    AtCallAlone(s, q);
    hide Inv;
    if e.ControlStep? { ControlStepProgresses(s, e.choice); }
    if e.CancelOne? { StaysCancelling(s, e.id); }
    hide Apply, Enabled, Joined;
  }

  lemma StaysWaiting(s: State, e: Event, t: State, q: nat)
    requires ControlSide(s, e, t) && Submit(q) in s.control.waiting
    ensures Submit(q) in t.control.waiting || t.controlPc == SubmitLoad(q)
  {
    if e.ControlBegin? {
      assert s.control.waiting == [s.control.waiting[0]] + s.control.waiting[1..];
    } else if e.ExecReport? {
      assert t.control.waiting == s.control.waiting + [t.control.waiting[|s.control.waiting|]];
    }
  }

  lemma BecomesAnswered(s: State, e: Event, q: nat)
    requires Inv(s) && Enabled(s, e) && q !in s.controlReply && q in Apply(s, e).controlReply
    ensures Answered(Apply(s, e), q, Apply(s, e).controlReply[q]) && AtCall(s.controlPc, q)
  {
    StepControlSide(s, e);
    if e.ControlStep? { ControlStepProgresses(s, e.choice); }
    hide Apply, Enabled;
    AtCallAlone(s, q);
  }

  lemma StepKeepsAnswers(s: State, e: Event, q: nat)
    requires CallInv(s) && Enabled(s, e) && q in Apply(s, e).controlReply
    ensures Answered(Apply(s, e), q, Apply(s, e).controlReply[q])
  {
    hide Apply, Enabled, Inv, Answered;
    if q in s.controlReply {
      StaysAnswered(s, e, q, s.controlReply[q]);
      AnsweredMeans(Apply(s, e), q, s.controlReply[q]);
    } else {
      BecomesAnswered(s, e, q);
    }
  }

  lemma AnsweredMeans(t: State, q: nat, b: bool)
    requires Answered(t, q, b)
    ensures q in t.controlReply && t.controlReply[q] == b && q < |t.requests|
  {
  }

  lemma StepKeepsReturned(s: State, e: Event, q: nat)
    requires CallInv(s) && Enabled(s, e) && q in Apply(s, e).returned
    ensures ReturnedRightly(Apply(s, e), q)
  {
    hide Inv, OnItsWay;
    var t := Apply(s, e);
    StepControlSide(s, e);
    if q in s.controlReply {
      StaysAnswered(s, e, q, s.controlReply[q]);
      AnsweredMeans(t, q, s.controlReply[q]);
    }
    hide Apply, Enabled, Answered;
  }

  lemma StepKeepsCalls(s: State, e: Event)
    requires CallInv(s) && Enabled(s, e)
    ensures CallInv(Apply(s, e))
  {
    var t := Apply(s, e);
    hide Apply, Enabled, Inv, Answered, OnItsWay, ReturnedRightly, CallInv;
    CallInvMeans(s);
    StepKeepsInv(s, e);
    forall q: nat | q < |t.requests| ensures q in t.controlReply || OnItsWay(t, q) {
      StepKeepsHandled(s, e, q);
    }
    forall q: nat | q in t.controlReply ensures Answered(t, q, t.controlReply[q]) {
      StepKeepsAnswers(s, e, q);
    }
    forall q: nat | q in t.returned ensures ReturnedRightly(t, q) {
      StepKeepsReturned(s, e, q);
    }
    MeansCallInv(t);
  }

  lemma CallInvMeans(s: State)
    requires CallInv(s)
    ensures Inv(s)
  {
  }

  lemma MeansCallInv(t: State)
    requires Inv(t) && (forall q: nat :: q < |t.requests| ==> q in t.controlReply || OnItsWay(t, q))
    requires forall q: nat :: q in t.controlReply ==> Answered(t, q, t.controlReply[q])
    requires forall q: nat :: q in t.returned ==> ReturnedRightly(t, q)
    ensures CallInv(t)
  {
    hide Inv, Answered, OnItsWay, ReturnedRightly;
  }

  lemma StepKeepsHandled(s: State, e: Event, q: nat)
    requires CallInv(s) && Enabled(s, e) && q < |Apply(s, e).requests|
    ensures var t := Apply(s, e); q in t.controlReply || OnItsWay(t, q)
  {
    var t := Apply(s, e);
    StepControlSide(s, e);
    hide Apply, Enabled, Inv, Answered, OnItsWay, ReturnedRightly;
    if q in s.controlReply {
      StaysAnswered(s, e, q, s.controlReply[q]);
      AnsweredMeans(t, q, s.controlReply[q]);
    } else if q < |s.requests| {
      StaysOnItsWay(s, e, q);
    } else {
      JustPosted(s, e, t, q);
    }
  }

  lemma JustPosted(s: State, e: Event, t: State, q: nat)
    requires ControlSide(s, e, t) && |s.requests| <= q < |t.requests|
    ensures OnItsWay(t, q)
  {
    assert t.control.waiting[|s.control.waiting|] == Submit(q);
  }

  lemma InitCalls(durable: bool, maxRetries: int, store: map<JobID, Status>)
    ensures CallInv(Init(durable, maxRetries, store))
  {
    InitInv(durable, maxRetries, store);
    hide Inv;
  }

  lemma ReachableCalls(s: State)
    requires Reachable(s)
    ensures CallInv(s)
  {
    hide CallInv, Enabled, Apply, Init;
    var durable, maxRetries, store :| Manager().Reaches(Init(durable, maxRetries, store), s);
    InitCalls(durable, maxRetries, store);
    forall s, e | CallInv(s) && Enabled(s, e) ensures CallInv(Apply(s, e)) {
      StepKeepsCalls(s, e);
    }
    InvariantReached(Manager(), s => CallInv(s), Init(durable, maxRetries, store), s);
  }

  /** No call is left without an answer: in every reachable state each call of SubmitJob
      that has posted is answered, or its task waits with the control runner or is at
      work; so once the control runner is idle all are answered. And SubmitJob returns
      its answer, unless the caller's context has ended. */
  lemma EveryCallIsAnswered(s: State, q: nat)
    requires Reachable(s) && q < |s.requests|
    ensures q in s.controlReply || Submit(q) in s.control.waiting || AtCall(s.controlPc, q)
    ensures s.control.Idle() ==> q in s.controlReply
    ensures q in s.returned && q !in s.contextDone ==> q in s.controlReply && s.returned[q] == s.controlReply[q]
  {
    ReachableCalls(s);
    hide ActiveInv, NewestInv, JobInv, FinalizeInv, RequestInv, IoInv, LogInv, WriteInv, RecordInv, ReplyInv,
         PendingInv;
    assert q in s.returned ==> ReturnedRightly(s, q);
  }

  /** The answer to a call is given once and stays. */
  lemma AnswersStay(s: State, q: nat, u: State)
    requires Reachable(s) && q in s.controlReply && Manager().Reaches(s, u)
    ensures q in u.controlReply && u.controlReply[q] == s.controlReply[q]
  {
    ReachableCalls(s);
    var b := s.controlReply[q];
    assert Answered(s, q, b);
    hide Answered, Enabled, Apply, Reachable, CallInv;
    forall u, e | Answered(u, q, b) && Enabled(u, e) ensures Answered(Apply(u, e), q, b) {
      StaysAnswered(u, e, q, b);
    }
    InvariantReached(Manager(), u => Answered(u, q, b), s, u);
    AnsweredMeans(u, q, b);
  }

  // ----- an error means that nothing was scheduled -----

  /** No instance of call q is left. */
  ghost predicate TakenBack(jobs: seq<Job>, q: nat)
  {
    forall j :: 0 <= j < |jobs| && jobs[j].request == Some(q) ==> jobs[j].stage.Rejected?
  }

  /** Call q has been answered with an error, and its instances, if any, have been taken back. */
  ghost predicate Refused(s: State, q: nat)
  {
    Answered(s, q, false) && (q in s.contextDone || TakenBack(s.jobs, q))
  }

  lemma TakenBackExtends(jobs: seq<Job>, more: seq<Job>, q: nat)
    requires TakenBack(jobs, q) && |jobs| <= |more| <= |jobs| + 1
    requires forall j: nat :: j < |jobs| ==> more[j].request == jobs[j].request
    requires forall j: nat :: j < |jobs| && jobs[j].stage.Rejected? ==> more[j].stage.Rejected?
    requires |more| > |jobs| ==> more[|jobs|].request != Some(q)
    ensures TakenBack(more, q)
  {
  }

  lemma TakenBackStays(s: State, e: Event, q: nat)
    requires Inv(s) && Enabled(s, e) && TakenBack(s.jobs, q) && !(s.controlPc.SubmitStore? && s.controlPc.q == q)
    ensures TakenBack(Apply(s, e).jobs, q)
  {
    var t := Apply(s, e);
    StepExtends(s, e);
    NoneEntersFor(s, e, t, q);
    hide Apply, Enabled, Inv, TakenBack, Extended;
    forall j: nat | j < |s.jobs|
      ensures t.jobs[j].request == s.jobs[j].request && (s.jobs[j].stage.Rejected? ==> t.jobs[j].stage.Rejected?)
    {
      JobKeepsRequest(s, e, j);
    }
    TakenBackExtends(s.jobs, t.jobs, q);
  }

  lemma NoneEntersFor(s: State, e: Event, t: State, q: nat)
    requires Extended(s, e, t) && !(s.controlPc.SubmitStore? && s.controlPc.q == q)
    ensures |s.jobs| <= |t.jobs| <= |s.jobs| + 1 && (|t.jobs| > |s.jobs| ==> t.jobs[|s.jobs|].request != Some(q))
  {
  }

  lemma JobKeepsRequest(s: State, e: Event, j: nat)
    requires Inv(s) && Enabled(s, e) && j < |s.jobs|
    ensures var t := Apply(s, e);
            && j < |t.jobs| && t.jobs[j].id == s.jobs[j].id && t.jobs[j].request == s.jobs[j].request
            && (s.jobs[j].stage.Rejected? ==> t.jobs[j].stage.Rejected?)
  {
    hide Apply, Enabled, Inv;
    StepGoesOn(s, e, j);
  }

  lemma StaysRefused(s: State, e: Event, q: nat)
    requires Inv(s) && Refused(s, q) && Enabled(s, e)
    ensures Refused(Apply(s, e), q)
  {
    StaysAnswered(s, e, q, false);
    StepControlSide(s, e);
    hide Apply, Enabled, Inv, TakenBack;
    if q !in s.contextDone {
      TakenBackStays(s, e, q);
    }
  }

  /** An answer of error, unless the caller's context has ended, is given only when no
      instance of the call is left. */
  lemma ErrorTakesBack(s: State, e: Event, q: nat)
    requires Inv(s) && Enabled(s, e) && q !in s.controlReply && q in Apply(s, e).controlReply
    requires !Apply(s, e).controlReply[q]
    ensures Refused(Apply(s, e), q)
  {
    BecomesAnswered(s, e, q);
    StepControlSide(s, e);
    if e.ControlStep? { ControlStepProgresses(s, e.choice); }
    hide Apply, Enabled, Inv, TakenBack, Answered;
    if q !in s.contextDone {
      assert TakenBack(s.jobs, q) by { ErrorHasReasons(s, e, q); }
      TakenBackStays(s, e, q);
    }
  }

  lemma ErrorHasReasons(s: State, e: Event, q: nat)
    requires Inv(s) && e.ControlStep? && AtCall(s.controlPc, q) && ErrorFor(s, e.choice) && q !in s.contextDone
    ensures TakenBack(s.jobs, q)
  {
    hide Inv;
    forall j: nat | j < |s.jobs| && s.jobs[j].request == Some(q) ensures s.jobs[j].stage.Rejected? {
      ErrorHasReason(s, e, q, j);
    }
  }

  lemma ErrorHasReason(s: State, e: Event, q: nat, j: nat)
    requires Inv(s) && e.ControlStep? && AtCall(s.controlPc, q) && ErrorFor(s, e.choice) && q !in s.contextDone
    requires j < |s.jobs| && s.jobs[j].request == Some(q)
    ensures s.jobs[j].stage.Rejected?
  {
    hide ActiveInv, NewestInv, JobInv, FinalizeInv, LogInv, WriteInv, RecordInv, ReplyInv, PendingInv;
    if s.controlPc.SubmitAwait? {
      var k := s.controlPc.j;
      assert s.jobs[k].request == Some(q) && s.jobs[k].stage.Rejected?;
      hide IoInv, ControlInv;
      assert j == k;
    }
  }

  ghost predicate ErrorInv(s: State)
  {
    CallInv(s) && forall q :: q in s.controlReply && !s.controlReply[q] ==> Refused(s, q)
  }

  lemma StepKeepsErrors(s: State, e: Event)
    requires ErrorInv(s) && Enabled(s, e)
    ensures ErrorInv(Apply(s, e))
  {
    var t := Apply(s, e);
    hide Apply, Enabled, CallInv, Refused;
    StepKeepsCalls(s, e);
    CallInvMeans(s);
    hide Inv;
    forall q: nat | q in t.controlReply && !t.controlReply[q] ensures Refused(t, q) {
      if q in s.controlReply {
        AnswerIsKept(s, e, q);
        StaysRefused(s, e, q);
      } else {
        ErrorTakesBack(s, e, q);
      }
    }
  }

  lemma AnswerIsKept(s: State, e: Event, q: nat)
    requires CallInv(s) && Enabled(s, e) && q in s.controlReply
    ensures q in Apply(s, e).controlReply && Apply(s, e).controlReply[q] == s.controlReply[q]
  {
    hide Apply, Enabled, Inv, Answered;
    StaysAnswered(s, e, q, s.controlReply[q]);
    AnsweredMeans(Apply(s, e), q, s.controlReply[q]);
  }

  lemma ReachableErrors(s: State)
    requires Reachable(s)
    ensures ErrorInv(s)
  {
    hide ErrorInv, Enabled, Apply, Init;
    var durable, maxRetries, store :| Manager().Reaches(Init(durable, maxRetries, store), s);
    InitErrors(durable, maxRetries, store);
    forall s, e | ErrorInv(s) && Enabled(s, e) ensures ErrorInv(Apply(s, e)) {
      StepKeepsErrors(s, e);
    }
    InvariantReached(Manager(), s => ErrorInv(s), Init(durable, maxRetries, store), s);
  }

  lemma InitErrors(durable: bool, maxRetries: int, store: map<JobID, Status>)
    ensures ErrorInv(Init(durable, maxRetries, store))
  {
    InitCalls(durable, maxRetries, store);
    hide CallInv;
  }

  /** An error from SubmitJob means that the job does not run: unless the caller's own
      context has ended, an instance admitted for a call answered with an error has been
      taken back, without having been scheduled. */
  lemma ErrorMeansNotScheduled(s: State, q: nat, j: nat)
    requires Reachable(s) && q in s.controlReply && !s.controlReply[q] && q !in s.contextDone
    requires j < |s.jobs| && s.jobs[j].request == Some(q)
    ensures s.jobs[j].stage.Rejected? && s.jobs[j].schedules == 0 && s.jobs[j].handlerRuns == 0
  {
    hide Reachable, ErrorInv;
    ReachableErrors(s);
    RejectedByError(s, q, j);
    RejectedNeverRan(s, j);
    hide Inv;
    ReachableInv(s);
    NeverScheduledThen(s, j);
  }

  lemma RejectedByError(s: State, q: nat, j: nat)
    requires ErrorInv(s) && q in s.controlReply && !s.controlReply[q] && q !in s.contextDone
    requires j < |s.jobs| && s.jobs[j].request == Some(q)
    ensures s.jobs[j].stage.Rejected?
  {
    hide CallInv, Answered;
    assert Refused(s, q);
  }

  lemma NeverScheduledThen(s: State, j: nat)
    requires Inv(s) && j < |s.jobs| && s.jobs[j].stage.Rejected?
    ensures s.jobs[j].schedules == 0
  {
    hide ActiveInv, NewestInv, ControlInv, FinalizeInv, RequestInv, IoInv, LogInv, WriteInv, RecordInv, ReplyInv,
         PendingInv;
  }

  ghost predicate NoneFor(jobs: seq<Job>, q: nat) { forall j :: 0 <= j < |jobs| ==> jobs[j].request != Some(q) }

  /** No instance was ever admitted for call q, and it has its error. */
  ghost predicate NeverAdmitted(s: State, q: nat)
  {
    Inv(s) && Answered(s, q, false) && NoneFor(s.jobs, q)
  }

  lemma NoneForExtends(jobs: seq<Job>, more: seq<Job>, q: nat)
    requires NoneFor(jobs, q) && |jobs| <= |more| <= |jobs| + 1
    requires forall j: nat :: j < |jobs| ==> more[j].request == jobs[j].request
    requires |more| > |jobs| ==> more[|jobs|].request != Some(q)
    ensures NoneFor(more, q)
  {
  }

  lemma StaysNeverAdmitted(s: State, e: Event, q: nat)
    requires NeverAdmitted(s, q) && Enabled(s, e)
    ensures NeverAdmitted(Apply(s, e), q)
  {
    var t := Apply(s, e);
    StaysAnswered(s, e, q, false);
    StepExtends(s, e);
    NoneEntersFor(s, e, t, q);
    hide Apply, Enabled, Inv, Extended, Answered, NoneFor;
    StepKeepsInv(s, e);
    forall j: nat | j < |s.jobs| ensures t.jobs[j].request == s.jobs[j].request {
      JobKeepsRequest(s, e, j);
    }
    NoneForExtends(s.jobs, t.jobs, q);
  }

  /** A call whose ID is active, or whose type has no handler, is turned away before
      anything is added: it gets its error, and no instance is ever admitted for it. */
  lemma TurnedAwayAtOnce(s: State, q: nat, choice: bool, t: State, u: State)
    requires Reachable(s) && Took(s, ControlStep(choice), t) && Manager().Reaches(t, u)
    requires || (s.controlPc == SubmitLoad(q) && q < |s.requests| && s.requests[q] in s.activeJobs)
             || (s.controlPc == SubmitHandler(q) && !choice)
    ensures q in u.controlReply && !u.controlReply[q]
    ensures forall j :: 0 <= j < |u.jobs| ==> u.jobs[j].request != Some(q)
  {
    TurnedAway(s, q, choice, t);
    hide NeverAdmitted, Enabled, Apply, Reachable, Took;
    forall u, e | NeverAdmitted(u, q) && Enabled(u, e) ensures NeverAdmitted(Apply(u, e), q) {
      StaysNeverAdmitted(u, e, q);
    }
    InvariantReached(Manager(), u => NeverAdmitted(u, q), t, u);
    NeverAdmittedMeans(u, q);
  }

  lemma NeverAdmittedMeans(u: State, q: nat)
    requires NeverAdmitted(u, q)
    ensures q in u.controlReply && !u.controlReply[q]
    ensures forall j :: 0 <= j < |u.jobs| ==> u.jobs[j].request != Some(q)
  {
    hide Inv;
  }

  lemma TurnedAway(s: State, q: nat, choice: bool, t: State)
    requires Reachable(s) && Took(s, ControlStep(choice), t)
    requires || (s.controlPc == SubmitLoad(q) && q < |s.requests| && s.requests[q] in s.activeJobs)
             || (s.controlPc == SubmitHandler(q) && !choice)
    ensures NeverAdmitted(t, q)
  {
    hide Reachable, Inv, CallInv, Answered;
    ReachableCalls(s);
    CallInvMeans(s);
    StepKeepsInv(s, ControlStep(choice));
    StepKeepsCalls(s, ControlStep(choice));
    ControlStepProgresses(s, choice);
    LookingLeavesJobs(s, choice);
    hide Apply, Enabled;
    NoneYet(s, q);
    AnswerOf(t, q);
  }

  lemma AnswerOf(t: State, q: nat)
    requires CallInv(t) && q in t.controlReply
    ensures Answered(t, q, t.controlReply[q])
  {
    hide Inv, OnItsWay, ReturnedRightly, Answered;
  }

  lemma NoneYet(s: State, q: nat)
    requires Inv(s) && (s.controlPc == SubmitLoad(q) || s.controlPc == SubmitHandler(q))
    ensures forall j :: 0 <= j < |s.jobs| ==> s.jobs[j].request != Some(q)
  {
    hide ActiveInv, NewestInv, JobInv, ControlInv, FinalizeInv, IoInv, LogInv, WriteInv, RecordInv, ReplyInv,
         PendingInv;
  }

  lemma LookingLeavesJobs(s: State, choice: bool)
    requires Enabled(s, ControlStep(choice)) && (s.controlPc.SubmitLoad? || s.controlPc.SubmitHandler?)
    ensures Apply(s, ControlStep(choice)).jobs == s.jobs
  {
    hide ExecNext, ClientNext, ShutdownNext, RunnerNext, RecoverNext, IoNext, FinishNext, CancelOneNext, LookNext,
         AdmitNext, HandOverNext;
    LookFrame(s, choice);
  }

  // ----- a caller's context -----

  ghost predicate CallerDone(s: State, q: nat) { q in s.contextDone }

  lemma StaysCallerDone(s: State, e: Event, q: nat)
    requires CallerDone(s, q) && Enabled(s, e)
    ensures CallerDone(Apply(s, e), q)
  {
    StepControlSide(s, e);
    hide Enabled, Apply, Joined;
  }

  /** Once a caller's context has ended, no handler of an instance of its call that has
      yet to pass its wrapper's check ever runs, be it admitted already or later. */
  lemma EndedCallNeverRuns(s: State, q: nat, t: State, u: State, j: nat, v: State)
    requires Reachable(s) && Took(s, EndContext(q), t) && Manager().Reaches(t, u)
    requires j < |u.jobs| && u.jobs[j].request == Some(q) && Unbegun(u.jobs[j].stage) && Manager().Reaches(u, v)
    ensures j < |v.jobs| && v.jobs[j].handlerRuns == 0
  {
    CallerDoneNow(s, q, t);
    Next(s, EndContext(q));
    hide Enabled, Apply, Reachable, CallerDone;
    forall u, e | CallerDone(u, q) && Enabled(u, e) ensures CallerDone(Apply(u, e), q) {
      StaysCallerDone(u, e, q);
    }
    InvariantReached(Manager(), u => CallerDone(u, q), t, u);
    ReachableLater(t, u);
    DoneByCaller(u, q, j);
    CancelledBeforeStartNeverRuns(u, j, v);
  }

  lemma DoneByCaller(u: State, q: nat, j: nat)
    requires CallerDone(u, q) && j < |u.jobs| && u.jobs[j].request == Some(q)
    ensures JobContextDone(u, j)
  {
  }

  lemma CallerDoneNow(s: State, q: nat, t: State)
    requires Took(s, EndContext(q), t)
    ensures CallerDone(t, q)
  {
    hide ExecNext, ShutdownNext, RunnerNext, RecoverNext, IoNext, SubmitNext, FinishNext, CancelOneNext;
  }

  lemma ReachableLater(s: State, t: State)
    requires Reachable(s) && Manager().Reaches(s, t)
    ensures Reachable(t)
  {
    hide Enabled, Apply, Init;
    var durable, maxRetries, store :| Manager().Reaches(Init(durable, maxRetries, store), s);
    ReachesFurther(Manager(), Init(durable, maxRetries, store), s, t);
  }
}
