/** How long the JobManager can go on by itself: every step of its three runners spends
    some of a computed amount of work. */
module JobManagerProgress {
  import opened Counting
  import opened Runs
  import opened FifoRunner
  import opened JobManagers
  import opened JobManagerInvariant
  import opened JobManagerRuns

  /** Retries that can follow an attempt. */
  function Retries(maxRetries: int, attempt: nat): nat { if attempt < maxRetries then maxRetries - attempt else 0 }

  /** What an io task, */
  function IoTaskWeight(r: nat, t: IoTask): nat
  {
    match t
    case Persist(_) => 9 + r
    case SetRunning(_) => 3 + r
    case SetFinal(_, _, _) => 4 + r
  }

  /** the current one, */
  function IoPcWeight(m: int, pc: IoPc): nat
  {
    match pc
    case NoIo => 0
    case FirstCheck(_) => 8 + Retries(m, 0)
    case LegacyGet(_) => 7 + Retries(m, 0)
    case Create(_, attempt) => 6 + Retries(m, attempt)
    case SecondCheck(_) => 5
    case Schedule(_) => 3
    case Reply(_, _) => 2
    case Delete(_) => 4
    case CancelInfo(_) => 3
    case Running(_, attempt) => 2 + Retries(m, attempt)
    case Final(_, attempt, _, _, _) => 3 + Retries(m, attempt)
    case FinalDone(_) => 2
    case IoOver => 1
  }

  /** an instance with all that it has yet to post, */
  function StageWeight(r: nat, st: Stage): nat
  {
    match st
    case Admitted => 26 + 3 * r
    case Persisting => 17 + 2 * r
    case Rejected => 0
    case Scheduled => 17 + 2 * r
    case Announcing => 16 + 2 * r
    case Handling => 12 + r
    case Reporting(_) => 11 + r
    case Finalizing(_) => 4 + r
    case Removed(_) => 4 + r
    case Closed(_) => 0
    case Unrunnable => 0
  }

  /** a control task and the current one still cost; n bounds the keys that Shutdown's
      task can meet. */
  function ControlTaskWeight(r: nat, n: nat, t: ControlTask): nat
  {
    match t
    case Submit(_) => 33 + 3 * r
    case Cancel(_) => 4
    case CancelAll => 4 + n
    case Finalize(_, _) => 6
  }

  function ControlPcWeight(r: nat, n: nat, pc: ControlPc): nat
  {
    match pc
    case NoControl => 0
    case SubmitLoad(_) => 32 + 3 * r
    case SubmitHandler(_) => 31 + 3 * r
    case SubmitStore(_) => 30 + 3 * r
    case SubmitPost(_, _) => 3
    case SubmitAwait(_, _) => 2
    case CancelLoad(_) => 3
    case CancelCancel(_) => 2
    case CancelAllStart => 3 + n
    case CancelEach(left) => 2 + |left|
    case FinalLoad(_, _) => 5
    case FinalCancel(_, _) => 4
    case FinalAdd(_, _) => 3
    case FinalPost(_, _) => 2
    case ControlOver => 1
  }

  function JobsWork(r: nat, jobs: seq<Job>): nat { Sum(jobs, (j: Job) => StageWeight(r, j.stage)) }
  function IoWork(r: nat, waiting: seq<IoTask>): nat { Sum(waiting, t => IoTaskWeight(r, t)) }
  function ControlWork(r: nat, n: nat, waiting: seq<ControlTask>): nat { Sum(waiting, t => ControlTaskWeight(r, n, t)) }

  /** The number of steps that are left, at most. */
  function Work(s: State, n: nat): nat
  {
    var r := Retries(s.maxRetries, 0);
    JobsWork(r, s.jobs) + ControlWork(r, n, s.control.waiting) + ControlPcWeight(r, n, s.controlPc)
    + IoWork(r, s.io.waiting) + IoPcWeight(s.maxRetries, s.ioPc)
  }

  function SubmitTask(t: ControlTask): nat { if t.Submit? then 1 else 0 }

  /** The instances there are and those that may still be admitted. */
  function Coming(s: State): nat
  {
    |s.jobs| + Sum(s.control.waiting, SubmitTask)
    + (if s.controlPc.SubmitLoad? || s.controlPc.SubmitHandler? || s.controlPc.SubmitStore? then 1 else 0)
  }

  lemma JobMoved(r: nat, jobs: seq<Job>, j: nat, job: Job)
    requires j < |jobs|
    ensures JobsWork(r, jobs[j := job]) + StageWeight(r, jobs[j].stage) == JobsWork(r, jobs) + StageWeight(r, job.stage)
  {
    SumUpdate(jobs, j, job, (x: Job) => StageWeight(r, x.stage));
  }

  lemma JobAdded(r: nat, jobs: seq<Job>, job: Job)
    ensures JobsWork(r, jobs + [job]) == JobsWork(r, jobs) + StageWeight(r, job.stage)
  {
    SumAppend(jobs, job, (x: Job) => StageWeight(r, x.stage));
  }

  lemma IoPosted(r: nat, waiting: seq<IoTask>, t: IoTask)
    ensures IoWork(r, waiting + [t]) == IoWork(r, waiting) + IoTaskWeight(r, t)
  {
    SumAppend(waiting, t, x => IoTaskWeight(r, x));
  }

  lemma ControlPosted(r: nat, n: nat, waiting: seq<ControlTask>, t: ControlTask)
    ensures ControlWork(r, n, waiting + [t]) == ControlWork(r, n, waiting) + ControlTaskWeight(r, n, t)
    ensures Sum(waiting + [t], SubmitTask) == Sum(waiting, SubmitTask) + SubmitTask(t)
  {
    SumAppend(waiting, t, x => ControlTaskWeight(r, n, x));
    SumAppend(waiting, t, SubmitTask);
  }

  /** A step spends work and brings no new instance. */
  predicate Spends(s: State, t: State, n: nat) { Work(t, n) < Work(s, n) && Coming(t) <= Coming(s) }

  lemma ExecSpends(s: State, e: Event, n: nat)
    requires IsExec(e) && ExecEnabled(s, e)
    ensures Spends(s, ExecNext(s, e), n)
  {
    hide JobsWork, IoWork, ControlWork;
    var r, t := Retries(s.maxRetries, 0), ExecNext(s, e);
    JobMoved(r, s.jobs, e.j, t.jobs[e.j]);
    if e.ExecAnnounce? {
      IoPosted(r, s.io.waiting, SetRunning(e.j));
    } else if e.ExecReport? {
      ControlPosted(r, n, s.control.waiting, Finalize(e.j, s.jobs[e.j].stage.status));
    }
  }

  lemma TurnSpends(s: State, e: Event, n: nat)
    requires IsRunner(e) && RunnerEnabled(s, e)
    ensures Spends(s, RunnerNext(s, e), n)
  {
    hide JobsWork;
  }

  // the io runner

  lemma CheckSpends(s: State, o: Outcome, n: nat)
    requires CheckStep(s, o)
    ensures Spends(s, CheckNext(s, o), n)
  {
    hide JobsWork, IoWork, ControlWork;
  }

  lemma CreatePc(s: State, o: Outcome)
    requires IoEnabled(s, o) && s.ioPc.Create?
    ensures IoPcWeight(s.maxRetries, CreateNext(s, o).ioPc) < IoPcWeight(s.maxRetries, s.ioPc)
  {
    hide Attempted, AttemptGives;
  }

  lemma CreateSpends(s: State, o: Outcome, n: nat)
    requires IoEnabled(s, o) && s.ioPc.Create?
    ensures Spends(s, CreateNext(s, o), n)
  {
    hide JobsWork, IoWork, ControlWork, IoPcWeight, CreateNext;
    CreateFrame(s, o);
    CreatePc(s, o);
  }

  lemma DecideSpends(s: State, o: Outcome, n: nat)
    requires DecideStep(s, o) && IoInv(s.jobs, s.io, s.ioPc, s.ioReply)
    ensures Spends(s, DecideNext(s, o), n)
  {
    hide JobsWork, IoWork, ControlWork, DecideNext;
    var r, t := Retries(s.maxRetries, 0), DecideNext(s, o);
    AtPersist(s);
    DecideFrame(s, o);
    hide IoInv;
    JobMoved(r, s.jobs, s.ioPc.j, t.jobs[s.ioPc.j]);
  }

  lemma AnswerSpends(s: State, n: nat)
    ensures s.ioPc.CancelInfo? || s.ioPc.Reply? ==> Spends(s, AnswerNext(s), n)
    ensures s.ioPc.FinalDone? ==> Spends(s, DoneNext(s), n)
  {
    hide JobsWork, IoWork, ControlWork;
  }

  lemma UpdatePc(s: State, o: Outcome)
    requires UpdateStep(s, o)
    ensures IoPcWeight(s.maxRetries, UpdateNext(s, o).ioPc) < IoPcWeight(s.maxRetries, s.ioPc)
  {
    hide Attempted, AttemptGives;
  }

  lemma UpdateSpends(s: State, o: Outcome, n: nat)
    requires UpdateStep(s, o)
    ensures Spends(s, UpdateNext(s, o), n)
  {
    hide JobsWork, IoWork, ControlWork, IoPcWeight, UpdateNext;
    UpdateFrame(s, o);
    UpdatePc(s, o);
  }

  lemma IoSpends(s: State, o: Outcome, n: nat)
    requires IoEnabled(s, o) && IoInv(s.jobs, s.io, s.ioPc, s.ioReply)
    ensures Spends(s, IoNext(s, o), n)
  {
    hide IoInv, Spends, CheckNext, CreateNext, DecideNext, AnswerNext, UpdateNext, DoneNext;
    if s.ioPc.FinalDone? || s.ioPc.CancelInfo? || s.ioPc.Reply? { AnswerSpends(s, n); }
    else if Updating(s.ioPc) { UpdateSpends(s, o, n); }
    else if s.ioPc.Create? { CreateSpends(s, o, n); }
    else if s.ioPc.Schedule? || s.ioPc.Delete? { DecideSpends(s, o, n); }
    else { CheckSpends(s, o, n); }
  }

  // the control runner

  lemma LookSpends(s: State, choice: bool, n: nat)
    requires LookStep(s, choice)
    ensures Spends(s, LookNext(s, choice), n)
  {
    hide JobsWork, IoWork, ControlWork, LookNext;
    LookFrame(s, choice);
  }

  lemma AdmitSpends(s: State, n: nat)
    requires s.controlPc.SubmitStore? && s.controlPc.q < |s.requests|
    ensures Spends(s, AdmitNext(s), n)
  {
    hide JobsWork, IoWork, ControlWork;
    JobAdded(Retries(s.maxRetries, 0), s.jobs, Job(s.requests[s.controlPc.q], Some(s.controlPc.q), Admitted, 0, 0));
  }

  lemma HandOverSpends(s: State, n: nat)
    requires s.controlPc.SubmitPost? && s.controlPc.j < |s.jobs| && ControlInv(s)
    ensures Spends(s, HandOverNext(s), n)
  {
    hide JobsWork, IoWork, ControlWork;
    var r, t, j := Retries(s.maxRetries, 0), HandOverNext(s), s.controlPc.j;
    AtSubmitPost(s);
    hide ControlInv;
    JobMoved(r, s.jobs, j, t.jobs[j]);
    IoPosted(r, s.io.waiting, Persist(j));
  }

  lemma SubmitSpends(s: State, choice: bool, n: nat)
    requires Submitting(s.controlPc) && ControlEnabled(s, choice) && ControlInv(s)
    ensures Spends(s, SubmitNext(s, choice), n)
  {
    hide ControlInv, Spends, LookNext, AdmitNext, HandOverNext;
    if s.controlPc.SubmitStore? { AdmitSpends(s, n); }
    else if s.controlPc.SubmitPost? { HandOverSpends(s, n); }
    else { LookSpends(s, choice, n); }
  }

  lemma CancelPc(s: State, r: nat, n: nat)
    requires Cancelling(s.controlPc) && |s.activeJobs.Keys| <= n
    ensures ControlPcWeight(r, n, CancelNext(s).controlPc) < ControlPcWeight(r, n, s.controlPc)
  {
    if s.controlPc.CancelAllStart? {
      CancelAllPc(s, r, n);
    } else {
      assert CancelNext(s).controlPc.CancelCancel? || CancelNext(s).controlPc.ControlOver?;
      assert CancelNext(s).controlPc.CancelCancel? ==> s.controlPc.CancelLoad?;
      hide CancelNext;
    }
  }

  lemma CancelAllPc(s: State, r: nat, n: nat)
    requires s.controlPc.CancelAllStart? && |s.activeJobs.Keys| <= n
    ensures ControlPcWeight(r, n, CancelNext(s).controlPc) < ControlPcWeight(r, n, s.controlPc)
  {
    assert CancelNext(s).controlPc == CancelEach(s.activeJobs.Keys);
    hide CancelNext;
  }

  lemma CancelSpends(s: State, n: nat)
    requires Cancelling(s.controlPc) && |s.activeJobs.Keys| <= n
    ensures Spends(s, CancelNext(s), n)
  {
    hide JobsWork, IoWork, ControlWork, ControlPcWeight, CancelNext;
    CancelFrame(s);
    CancelPc(s, Retries(s.maxRetries, 0), n);
  }

  lemma CancelOneSpends(s: State, id: JobID, n: nat)
    requires s.controlPc.CancelEach? && id in s.controlPc.left
    ensures Spends(s, CancelOneNext(s, id), n)
  {
    hide JobsWork, IoWork, ControlWork;
  }

  lemma RemoveSpends(s: State, n: nat)
    requires AboutToRemove(s) && ControlEnabled(s, true)
    ensures Spends(s, RemoveNext(s), n)
  {
    hide JobsWork, IoWork, ControlWork;
    var r, t, j := Retries(s.maxRetries, 0), RemoveNext(s), s.controlPc.j;
    JobMoved(r, s.jobs, j, t.jobs[j]);
  }

  lemma MarkSpends(s: State, n: nat)
    requires s.controlPc.FinalCancel? || s.controlPc.FinalAdd?
    ensures Spends(s, MarkNext(s), n)
  {
    hide JobsWork, IoWork, ControlWork;
  }

  lemma FinalPostSpends(s: State, n: nat)
    requires s.controlPc.FinalPost? && s.controlPc.j < |s.jobs| && s.jobs[s.controlPc.j].stage.Removed?
    ensures Spends(s, FinalPostNext(s), n)
  {
    hide JobsWork, IoWork, ControlWork;
    var r, t, j := Retries(s.maxRetries, 0), FinalPostNext(s), s.controlPc.j;
    JobMoved(r, s.jobs, j, t.jobs[j]);
    IoPosted(r, s.io.waiting, SetFinal(j, s.controlPc.status, true));
  }

  lemma FinishSpends(s: State, n: nat)
    requires Inv(s) && ControlEnabled(s, true) && !Submitting(s.controlPc) && |s.activeJobs.Keys| <= n
    ensures Spends(s, FinishNext(s), n)
  {
    hide ActiveInv, NewestInv, JobInv, ControlInv, FinalizeInv, RequestInv, IoInv, LogInv, WriteInv, RecordInv,
         ReplyInv, PendingInv, Spends, CancelNext, RemoveNext, FinalPostNext, MarkNext;
    if Cancelling(s.controlPc) {
      CancelSpends(s, n);
    } else if s.controlPc.FinalLoad? {
      FinalizesItself(s);
      RemoveSpends(s, n);
    } else if s.controlPc.FinalPost? {
      AtFinal(s);
      FinalPostSpends(s, n);
    } else {
      MarkSpends(s, n);
    }
  }

  // activeJobs holds no more keys than there are instances

  function IDs(jobs: seq<Job>): (ids: set<JobID>)
    ensures |ids| <= |jobs| && forall j :: 0 <= j < |jobs| ==> jobs[j].id in ids
  {
    if jobs == [] then {} else IDs(jobs[..|jobs| - 1]) + {jobs[|jobs| - 1].id}
  }

  lemma {:induction false} SubsetIsSmaller(a: set<JobID>, b: set<JobID>)
    requires a <= b
    ensures |a| <= |b|
  {
    if a != {} {
      var id: JobID :| id in a;
      SubsetIsSmaller(a - {id}, b - {id});
    }
  }

  lemma KeysBounded(jobs: seq<Job>, active: map<JobID, nat>)
    requires ActiveInv(jobs, active)
    ensures |active.Keys| <= |jobs|
  {
    SubsetIsSmaller(active.Keys, IDs(jobs));
  }

  lemma InternalStepsSpendWork(s: State, e: Event, n: nat)
    requires Inv(s) && Internal(e) && Enabled(s, e) && Coming(s) <= n
    ensures Spends(s, Apply(s, e), n)
  {
    hide ActiveInv, NewestInv, JobInv, ControlInv, FinalizeInv, RequestInv, IoInv, LogInv, WriteInv, RecordInv,
         ReplyInv, PendingInv, Spends, ExecNext, RunnerNext, IoNext, SubmitNext, FinishNext, CancelOneNext;
    KeysBounded(s.jobs, s.activeJobs);
    if IsExec(e) { ExecSpends(s, e, n); }
    else if IsRunner(e) { TurnSpends(s, e, n); }
    else if e.IoStep? { IoSpends(s, e.outcome, n); }
    else if e.CancelOne? { CancelOneSpends(s, e.id, n); }
    else if Submitting(s.controlPc) { SubmitSpends(s, e.choice, n); }
    else { FinishSpends(s, n); }
  }

  /** Once clients stop and nobody takes a further step of Shutdown, */
  lemma {:induction false} SpendsAll(s: State, more: seq<Event>, n: nat)
    requires Inv(s) && Manager().Legal(s, more) && Coming(s) <= n
    requires forall i :: 0 <= i < |more| ==> Internal(more[i])
    ensures |more| <= Work(s, n)
    decreases |more|
  {
    hide Inv, Work, Enabled, Apply, Internal, Coming;
    if more != [] {
      StepKeepsInv(s, more[0]);
      InternalStepsSpendWork(s, more[0], n);
      SpendsAll(Apply(s, more[0]), more[1..], n);
    }
  }

  /** the manager takes no more steps than Work says, and where it can take none no
      job is left behind. */
  lemma ManagerDrains(s: State, more: seq<Event>)
    requires Reachable(s) && Manager().Legal(s, more) && forall i :: 0 <= i < |more| ==> Internal(more[i])
    ensures |more| <= Work(s, Coming(s))
    ensures var t := Manager().After(s, more);
            Quiescent(t) ==> t.activeJobs == map[] && forall j :: 0 <= j < |t.jobs| ==> Settled(t.jobs[j].stage)
  {
    hide Inv, Work, Enabled, Apply, Internal, Quiescent, Coming, Init;
    ReachableInv(s);
    SpendsAll(s, more, Coming(s));
    var t := Manager().After(s, more);
    var durable, maxRetries, store :| Manager().Reaches(Init(durable, maxRetries, store), s);
    ReachesOn(Manager(), Init(durable, maxRetries, store), s, more);
    if Quiescent(t) {
      NothingLeftBehind(t);
    }
  }
}
