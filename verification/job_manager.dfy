/** The JobManager's three runners (job/job_manager.go): control tasks admit,
    cancel and finalize jobs, io tasks write the store, and the execution runner
    runs the handlers. Control and io are sequenced runners; execution wrappers of
    different jobs interleave freely. One event per atomic operation. */
module JobManagers {
  import opened Runs
  import opened FifoRunner

  type JobID = nat

  datatype Status = PENDING | RUNNING | COMPLETED | FAILED | CANCELED

  predicate Terminal(st: Status) { st.COMPLETED? || st.FAILED? || st.CANCELED? }

  /** How far one admitted instance of a job has come. */
  datatype Stage =
    | Admitted                    // in activeJobs, its persist task not yet posted
    | Persisting                  // its persist task is with the io runner
    | Rejected                    // the io step took it out of activeJobs again
    | Scheduled                   // its wrapper is with the execution runner
    | Announcing                  // past the cancellation check, about to post RUNNING
    | Handling                    // RUNNING posted, handler running
    | Reporting(status: Status)   // about to post finalizeJobControl
    | Finalizing(status: Status)  // finalizeJobControl is with the control runner
    | Removed(status: Status)     // LoadAndDelete done, final write not yet posted
    | Closed(status: Status)      // final write posted
    | Unrunnable                  // recovered without a handler: only a FAILED write is posted

  /** An instance: request is the SubmitJob call that made it, none for a recovered job. */
  datatype Job = Job(id: JobID, request: Option<nat>, stage: Stage, schedules: nat, handlerRuns: nat)

  datatype ControlTask = Submit(q: nat) | Cancel(id: JobID) | CancelAll | Finalize(j: nat, status: Status)

  datatype IoTask =
    | Persist(job: nat)
    | SetRunning(job: nat)
    | SetFinal(job: nat, status: Status, counted: bool)  // counted in pendingFinalize

  /** Where the current control task stands. */
  datatype ControlPc =
    | NoControl
    | SubmitLoad(q: nat) | SubmitHandler(q: nat) | SubmitStore(q: nat)
    | SubmitPost(q: nat, j: nat) | SubmitAwait(q: nat, j: nat)
    | CancelLoad(id: JobID) | CancelCancel(j: nat)
    | CancelAllStart | CancelEach(left: set<JobID>)
    | FinalLoad(j: nat, status: Status) | FinalCancel(j: nat, status: Status)
    | FinalAdd(j: nat, status: Status) | FinalPost(j: nat, status: Status)
    | ControlOver

  /** Where the current io task stands. */
  datatype IoPc =
    | NoIo
    | FirstCheck(j: nat) | LegacyGet(j: nat) | Create(j: nat, attempt: nat) | SecondCheck(j: nat)
    | Schedule(j: nat) | Reply(j: nat, ok: bool)
    | Delete(j: nat) | CancelInfo(j: nat)
    | Running(j: nat, attempt: nat)
    | Final(j: nat, attempt: nat, status: Status, counted: bool, wrote: bool)  // wrote: an attempt has written
    | FinalDone(counted: bool)
    | IoOver

  /** Where the call of Shutdown stands. */
  datatype ShutdownPc =
    | NotCalled
    | MarkedClosed                             // closed is set, its control task not yet posted
    | AwaitCancels                             // waiting for that task
    | Polling                                  // waiting for the next tick
    | Counting(left: set<JobID>, seen: bool)   // in the Range of GetActiveJobCount
    | SawNoneActive                            // about to load pendingFinalize
    | ReturnedNil
    | GaveUp

  /** What Shutdown and the closed flag involve. submitting: calls of SubmitJob that are
      past the closed check and have yet to post. */
  datatype Shut = Shut(closed: bool, submitting: multiset<JobID>, cancelsDone: bool, pc: ShutdownPc)

  /** One store write: made by the io task at position pos of the io log. */
  datatype Write = Write(pos: nat, job: nat, status: Status)

  datatype State = State(
    durable: bool,
    maxRetries: int,
    control: Fifo<ControlTask>,
    controlPc: ControlPc,
    io: Fifo<IoTask>,
    ioPc: IoPc,
    activeJobs: map<JobID, nat>,
    jobs: seq<Job>,                 // in admission order
    requests: seq<JobID>,           // SubmitJob calls
    contextDone: set<nat>,          // calls whose context has ended
    cancelled: set<nat>,            // jobs whose own cancel function was called
    store: map<JobID, Status>,
    pendingFinalize: int,
    ioReply: map<nat, bool>,        // what the io step sent back for a job, true for nil
    controlReply: map<nat, bool>,   // what submitJobControl sent back for a call, true for nil
    returned: map<nat, bool>,       // what SubmitJob returned, true for nil
    writes: seq<Write>,
    unwritten: set<nat>,            // jobs whose final write ended without writing
    shut: Shut)

  /** The result of one attempt of retryIOOperation. */
  datatype Outcome = Ok | Error(wrote: bool) | Exists | ContextOver | NoAttempt

  datatype Event =
    | RecoverJob(id: JobID, found: bool)
    | SubmitCall(id: JobID) | PostSubmit(id: JobID) | CancelCall(id: JobID)
    | EndContext(q: nat) | Receive(q: nat) | GiveUp(q: nat)
    | CloseManager | PostCancelAll | CancelsDone | BeginCount | CountOne(id: JobID) | EndCount | LoadPending
    | AbandonShutdown
    | ControlBegin | ControlStep(choice: bool) | CancelOne(id: JobID) | ControlEnd
    | IoBegin | IoStep(outcome: Outcome) | IoEnd
    | ExecCheck(j: nat) | ExecAnnounce(j: nat) | ExecHandle(j: nat, status: Status) | ExecReport(j: nat)

  function Init(durable: bool, maxRetries: int, store: map<JobID, Status>): State
  {
    State(durable, maxRetries, Empty(), NoControl, Empty(), NoIo, map[], [], [], {}, {}, store, 0,
          map[], map[], map[], [], {}, Shut(false, multiset{}, false, NotCalled))
  }

  // ----- steps -----

  /** The submitter's own context has ended. */
  predicate ParentDone(s: State, j: nat)
    requires j < |s.jobs|
  {
    s.jobs[j].request.Some? && s.jobs[j].request.value in s.contextDone
  }

  /** jobCtx.Err() != nil */
  predicate JobContextDone(s: State, j: nat)
    requires j < |s.jobs|
  {
    j in s.cancelled || ParentDone(s, j)
  }

  function SetStage(s: State, j: nat, stage: Stage): State
    requires j < |s.jobs|
  {
    s.(jobs := s.jobs[j := s.jobs[j].(stage := stage)])
  }

  predicate Wrote(o: Outcome) { o == Ok || o == Error(true) }

  /** What one attempt does to the store. */
  function Attempted(s: State, j: nat, status: Status, o: Outcome): State
    requires j < |s.jobs|
  {
    if Wrote(o)
    then s.(store := s.store[s.jobs[j].id := status], writes := s.writes + [Write(|s.io.finished|, j, status)])
    else s
  }

  /** Which outcomes an attempt can have: no attempt is made when maxRetries is
      negative; can says whether the store can take the write. */
  predicate AttemptGives(s: State, o: Outcome, can: bool, exists_: bool, contextOver: bool)
  {
    match o
    case NoAttempt => s.maxRetries < 0
    case ContextOver => s.maxRetries >= 0 && contextOver
    case Ok => s.maxRetries >= 0 && can
    case Error(wrote) => s.maxRetries >= 0 && (wrote ==> can)
    case Exists => s.maxRetries >= 0 && exists_
  }

  /** retryIOOperation tries once more. */
  predicate TriesAgain(maxRetries: int, o: Outcome, attempt: nat) { o.Error? && attempt < maxRetries }

  /** retryIOOperation's result is nil: after a success, or because it never tried. */
  predicate NilResult(o: Outcome) { o == Ok || o == NoAttempt }

  /** A record that GetJob reports as pending or running. */
  predicate Unfinished(s: State, j: nat)
    requires j < |s.jobs|
  {
    s.jobs[j].id in s.store && (s.store[s.jobs[j].id].PENDING? || s.store[s.jobs[j].id].RUNNING?)
  }

  predicate ControlEnabled(s: State, choice: bool)
  {
    match s.controlPc
    case NoControl => false
    case ControlOver => false
    case SubmitLoad(q) => q < |s.requests|
    case SubmitHandler(q) => q < |s.requests|
    case SubmitStore(q) => q < |s.requests|
    case SubmitPost(q, j) => j < |s.jobs|
    case SubmitAwait(q, j) => if choice then j in s.ioReply else q in s.contextDone
    case CancelLoad(_) => true
    case CancelCancel(_) => true
    case CancelAllStart => true
    case CancelEach(left) => left == {}
    case FinalLoad(j, _) => j < |s.jobs| && (s.jobs[j].id in s.activeJobs ==> s.activeJobs[s.jobs[j].id] < |s.jobs|)
    case FinalCancel(_, _) => true
    case FinalAdd(_, _) => true
    case FinalPost(j, _) => j < |s.jobs|
  }

  predicate Submitting(pc: ControlPc)
  {
    pc.SubmitLoad? || pc.SubmitHandler? || pc.SubmitStore? || pc.SubmitPost? || pc.SubmitAwait?
  }

  /** submitJobControl: its two checks and its answer. choice: whether the handler is
      registered; whether the final select takes the io reply. */
  function LookNext(s: State, choice: bool): State
    requires ControlEnabled(s, choice) && Submitting(s.controlPc)
    requires !s.controlPc.SubmitStore? && !s.controlPc.SubmitPost?
  {
    match s.controlPc
    case SubmitLoad(q) =>
      if s.requests[q] in s.activeJobs then s.(controlReply := s.controlReply[q := false], controlPc := ControlOver)
      else s.(controlPc := SubmitHandler(q))
    case SubmitHandler(q) =>
      if choice then s.(controlPc := SubmitStore(q))
      else s.(controlReply := s.controlReply[q := false], controlPc := ControlOver)
    case SubmitAwait(q, j) =>
      s.(controlReply := s.controlReply[q := choice && s.ioReply[j]], controlPc := ControlOver)
  }

  /** It adds the instance to activeJobs, */
  function AdmitNext(s: State): State
    requires s.controlPc.SubmitStore? && s.controlPc.q < |s.requests|
  {
    var q := s.controlPc.q;
    s.(jobs := s.jobs + [Job(s.requests[q], Some(q), Admitted, 0, 0)],
       activeJobs := s.activeJobs[s.requests[q] := |s.jobs|], controlPc := SubmitPost(q, |s.jobs|))
  }

  /** and posts its io task. */
  function HandOverNext(s: State): State
    requires s.controlPc.SubmitPost? && s.controlPc.j < |s.jobs|
  {
    var j := s.controlPc.j;
    SetStage(s, j, Persisting).(io := Post(s.io, Persist(j)), controlPc := SubmitAwait(s.controlPc.q, j))
  }

  function SubmitNext(s: State, choice: bool): State
    requires ControlEnabled(s, choice) && Submitting(s.controlPc)
  {
    if s.controlPc.SubmitStore? then AdmitNext(s)
    else if s.controlPc.SubmitPost? then HandOverNext(s)
    else LookNext(s, choice)
  }

  predicate Cancelling(pc: ControlPc)
  {
    pc.CancelLoad? || pc.CancelCancel? || pc.CancelAllStart? || pc.CancelEach?
  }

  /** cancelJobControl, and Shutdown's control task around its loop. */
  function CancelNext(s: State): State
    requires Cancelling(s.controlPc)
  {
    match s.controlPc
    case CancelLoad(id) =>
      s.(controlPc := if id in s.activeJobs then CancelCancel(s.activeJobs[id]) else ControlOver)
    case CancelCancel(j) => s.(cancelled := s.cancelled + {j}, controlPc := ControlOver)
    case CancelAllStart => s.(controlPc := CancelEach(s.activeJobs.Keys))
    case CancelEach(_) => s.(shut := s.shut.(cancelsDone := true), controlPc := ControlOver)
  }

  /** One turn of that loop. */
  function CancelOneNext(s: State, id: JobID): State
    requires s.controlPc.CancelEach?
  {
    s.(cancelled := if id in s.activeJobs then s.cancelled + {s.activeJobs[id]} else s.cancelled,
       controlPc := CancelEach(s.controlPc.left - {id}))
  }

  predicate FinalPc(pc: ControlPc) { pc.FinalCancel? || pc.FinalAdd? || pc.FinalPost? }

  /** finalizeJobControl: LoadAndDelete, */
  function RemoveNext(s: State): State
    requires ControlEnabled(s, true) && s.controlPc.FinalLoad?
  {
    var id, st := s.jobs[s.controlPc.j].id, s.controlPc.status;
    if id !in s.activeJobs then s.(controlPc := ControlOver)
    else SetStage(s, s.activeJobs[id], Removed(st)).(activeJobs := s.activeJobs - {id},
                                                     controlPc := FinalCancel(s.activeJobs[id], st))
  }

  /** cancel and Add(1), */
  function MarkNext(s: State): State
    requires s.controlPc.FinalCancel? || s.controlPc.FinalAdd?
  {
    var j, st := s.controlPc.j, s.controlPc.status;
    if s.controlPc.FinalCancel? then s.(cancelled := s.cancelled + {j}, controlPc := FinalAdd(j, st))
    else s.(pendingFinalize := s.pendingFinalize + 1, controlPc := FinalPost(j, st))
  }

  /** and the final write is posted. */
  function FinalPostNext(s: State): State
    requires s.controlPc.FinalPost? && s.controlPc.j < |s.jobs|
  {
    var j, st := s.controlPc.j, s.controlPc.status;
    SetStage(s, j, Closed(st)).(io := Post(s.io, SetFinal(j, st, true)), controlPc := ControlOver)
  }

  function FinishNext(s: State): State
    requires ControlEnabled(s, true) && !Submitting(s.controlPc)
  {
    if Cancelling(s.controlPc) then CancelNext(s)
    else if s.controlPc.FinalLoad? then RemoveNext(s)
    else if s.controlPc.FinalPost? then FinalPostNext(s)
    else MarkNext(s)
  }

  predicate Updating(pc: IoPc) { pc.Running? || pc.Final? || pc.FinalDone? }

  predicate IoEnabled(s: State, o: Outcome)
  {
    match s.ioPc
    case NoIo => false
    case IoOver => false
    case FirstCheck(j) => o == Ok && j < |s.jobs|
    case LegacyGet(j) =>
      j < |s.jobs| && (o == Error(false) || o == (if Unfinished(s, j) then Exists else Ok))
    case Create(j, attempt) =>
      j < |s.jobs| && (var known := s.durable && s.jobs[j].id in s.store;
                       AttemptGives(s, o, !known, known, ParentDone(s, j)))
    case SecondCheck(j) => o == Ok && j < |s.jobs|
    case Schedule(j) => o == Ok && j < |s.jobs|
    case Reply(_, _) => o == Ok
    case Delete(j) => o == Ok && j < |s.jobs|
    case CancelInfo(_) => o == Ok
    case Running(j, attempt) =>
      j < |s.jobs| && AttemptGives(s, o, s.jobs[j].id in s.store, false, JobContextDone(s, j))
    case Final(j, attempt, _, _, _) =>
      j < |s.jobs| && AttemptGives(s, o, s.jobs[j].id in s.store, false, false)
    case FinalDone(_) => o == Ok
  }

  /** The io task of submitJobIO, with persistNewJobIO and scheduleExecution: its
      checks, */
  function CheckNext(s: State, o: Outcome): State
    requires IoEnabled(s, o) && (s.ioPc.FirstCheck? || s.ioPc.LegacyGet? || s.ioPc.SecondCheck?)
  {
    var j := s.ioPc.j;
    s.(ioPc := if s.ioPc.LegacyGet? then (if o == Exists then Delete(j) else Create(j, 0))
               else if JobContextDone(s, j) then Delete(j)
               else if s.ioPc.SecondCheck? then Schedule(j)
               else if s.durable then Create(j, 0) else LegacyGet(j))
  }

  /** its attempts to write the record, */
  function CreateNext(s: State, o: Outcome): State
    requires IoEnabled(s, o) && s.ioPc.Create?
  {
    var j, attempt := s.ioPc.j, s.ioPc.attempt;
    Attempted(s, j, PENDING, o).(ioPc := if NilResult(o) then SecondCheck(j)
                                         else if TriesAgain(s.maxRetries, o, attempt) then Create(j, attempt + 1)
                                         else Delete(j))
  }

  /** its decision, */
  function DecideNext(s: State, o: Outcome): State
    requires IoEnabled(s, o) && (s.ioPc.Schedule? || s.ioPc.Delete?)
  {
    var j := s.ioPc.j;
    if s.ioPc.Schedule? then
      s.(jobs := s.jobs[j := s.jobs[j].(stage := Scheduled, schedules := s.jobs[j].schedules + 1)],
         ioPc := Reply(j, true))
    else
      SetStage(s, j, Rejected).(activeJobs := s.activeJobs - {s.jobs[j].id}, ioPc := CancelInfo(j))
  }

  /** and its answer. */
  function AnswerNext(s: State): State
    requires s.ioPc.CancelInfo? || s.ioPc.Reply?
  {
    var j := s.ioPc.j;
    if s.ioPc.CancelInfo? then s.(cancelled := s.cancelled + {j}, ioPc := Reply(j, false))
    else s.(ioReply := s.ioReply[j := s.ioPc.ok], ioPc := IoOver)
  }

  function PersistNext(s: State, o: Outcome): State
    requires IoEnabled(s, o) && !Updating(s.ioPc)
  {
    if s.ioPc.Create? then CreateNext(s, o)
    else if s.ioPc.Schedule? || s.ioPc.Delete? then DecideNext(s, o)
    else if s.ioPc.CancelInfo? || s.ioPc.Reply? then AnswerNext(s)
    else CheckNext(s, o)
  }

  /** One attempt of updateStatusIO's RUNNING write, */
  function AnnounceNext(s: State, o: Outcome): State
    requires IoEnabled(s, o) && s.ioPc.Running?
  {
    var j, attempt := s.ioPc.j, s.ioPc.attempt;
    Attempted(s, j, RUNNING, o).(
      ioPc := if TriesAgain(s.maxRetries, o, attempt) then Running(j, attempt + 1) else IoOver)
  }

  /** and of a final write: finalizeJobControl's, or that of a job without a handler. */
  function ConcludeNext(s: State, o: Outcome): State
    requires IoEnabled(s, o) && s.ioPc.Final?
  {
    var j, attempt, status := s.ioPc.j, s.ioPc.attempt, s.ioPc.status;
    var again, wrote := TriesAgain(s.maxRetries, o, attempt), s.ioPc.wrote || Wrote(o);
    Attempted(s, j, status, o).(
      ioPc := if again then Final(j, attempt + 1, status, s.ioPc.counted, wrote) else FinalDone(s.ioPc.counted),
      unwritten := if again || wrote then s.unwritten else s.unwritten + {j})
  }

  function UpdateNext(s: State, o: Outcome): State
    requires IoEnabled(s, o) && (s.ioPc.Running? || s.ioPc.Final?)
  {
    if s.ioPc.Running? then AnnounceNext(s, o) else ConcludeNext(s, o)
  }

  /** The deferred Add(-1). */
  function DoneNext(s: State): State
    requires s.ioPc.FinalDone?
  {
    s.(pendingFinalize := if s.ioPc.counted then s.pendingFinalize - 1 else s.pendingFinalize, ioPc := IoOver)
  }

  function ControlStart(t: ControlTask): ControlPc
  {
    match t
    case Submit(q) => SubmitLoad(q)
    case Cancel(id) => CancelLoad(id)
    case CancelAll => CancelAllStart
    case Finalize(j, st) => FinalLoad(j, st)
  }

  function IoStart(t: IoTask): IoPc
  {
    match t
    case Persist(j) => FirstCheck(j)
    case SetRunning(j) => Running(j, 0)
    case SetFinal(j, st, counted) => Final(j, 0, st, counted, false)
  }

  predicate IsExec(e: Event) { e.ExecCheck? || e.ExecAnnounce? || e.ExecHandle? || e.ExecReport? }

  predicate IsClient(e: Event)
  {
    e.SubmitCall? || e.PostSubmit? || e.CancelCall? || e.EndContext? || e.Receive? || e.GiveUp?
  }

  predicate IsShutdown(e: Event)
  {
    || e.CloseManager? || e.PostCancelAll? || e.CancelsDone? || e.BeginCount? || e.CountOne? || e.EndCount?
    || e.LoadPending? || e.AbandonShutdown?
  }

  predicate IsRunner(e: Event) { e.ControlBegin? || e.ControlEnd? || e.IoBegin? || e.IoEnd? }

  predicate RecoverEnabled(s: State, id: JobID)
  {
    && s.requests == [] && s.shut == Shut(false, multiset{}, false, NotCalled) && s.controlPc.NoControl?
    && id in s.store && s.store[id].PENDING? && (forall j :: 0 <= j < |s.jobs| ==> s.jobs[j].id != id)
  }

  predicate ClientEnabled(s: State, e: Event)
    requires IsClient(e)
  {
    match e
    case SubmitCall(_) => !s.shut.closed
    case PostSubmit(id) => id in s.shut.submitting
    case CancelCall(_) => true
    case EndContext(q) => q < |s.requests|
    case Receive(q) => q in s.controlReply && q !in s.returned
    case GiveUp(q) => q in s.contextDone && q !in s.returned
  }

  predicate ShutdownEnabled(s: State, e: Event)
    requires IsShutdown(e)
  {
    match e
    case CloseManager => !s.shut.closed
    case PostCancelAll => s.shut.pc.MarkedClosed?
    case CancelsDone => s.shut.pc.AwaitCancels? && s.shut.cancelsDone
    case BeginCount => s.shut.pc.Polling?
    case CountOne(id) => s.shut.pc.Counting? && (id in s.shut.pc.left || id in s.activeJobs)
    case EndCount => s.shut.pc.Counting? && s.shut.pc.left == {}
    case LoadPending => s.shut.pc.SawNoneActive?
    case AbandonShutdown => s.shut.pc.AwaitCancels? || s.shut.pc.Polling?
  }

  predicate ExecEnabled(s: State, e: Event)
    requires IsExec(e)
  {
    match e
    case ExecCheck(j) => j < |s.jobs| && s.jobs[j].stage.Scheduled?
    case ExecAnnounce(j) => j < |s.jobs| && s.jobs[j].stage.Announcing?
    case ExecHandle(j, st) =>
      j < |s.jobs| && s.jobs[j].stage.Handling? &&
      (st.COMPLETED? || (st.CANCELED? && JobContextDone(s, j)) || (st.FAILED? && !JobContextDone(s, j)))
    case ExecReport(j) => j < |s.jobs| && s.jobs[j].stage.Reporting?
  }

  predicate RunnerEnabled(s: State, e: Event)
    requires IsRunner(e)
  {
    match e
    case ControlBegin => s.controlPc.NoControl? && CanBegin(s.control)
    case ControlEnd => s.controlPc.ControlOver? && s.control.current.Some?
    case IoBegin => s.ioPc.NoIo? && CanBegin(s.io)
    case IoEnd => s.ioPc.IoOver? && s.io.current.Some?
  }

  predicate Enabled(s: State, e: Event)
  {
    if IsExec(e) then ExecEnabled(s, e)
    else if IsClient(e) then ClientEnabled(s, e)
    else if IsShutdown(e) then ShutdownEnabled(s, e)
    else if IsRunner(e) then RunnerEnabled(s, e)
    else if e.RecoverJob? then RecoverEnabled(s, e.id)
    else if e.IoStep? then IoEnabled(s, e.outcome)
    else if e.CancelOne? then s.controlPc.CancelEach? && e.id in s.controlPc.left
    else ControlEnabled(s, e.choice)
  }

  /** One recovered record, as the control task of doRecoveryIO treats it: without a
      handler its FAILED write is posted, otherwise it is active and scheduled. */
  function RecoverNext(s: State, id: JobID, found: bool): State
  {
    if found
    then s.(jobs := s.jobs + [Job(id, None, Scheduled, 1, 0)], activeJobs := s.activeJobs[id := |s.jobs|])
    else s.(jobs := s.jobs + [Job(id, None, Unrunnable, 0, 0)], io := Post(s.io, SetFinal(|s.jobs|, FAILED, false)))
  }

  /** The execution wrapper of scheduleExecution. */
  function ExecNext(s: State, e: Event): State
    requires IsExec(e) && ExecEnabled(s, e)
  {
    match e
    case ExecCheck(j) => SetStage(s, j, if JobContextDone(s, j) then Reporting(CANCELED) else Announcing)
    case ExecAnnounce(j) =>
      s.(jobs := s.jobs[j := s.jobs[j].(stage := Handling, handlerRuns := s.jobs[j].handlerRuns + 1)],
         io := Post(s.io, SetRunning(j)))
    case ExecHandle(j, st) => SetStage(s, j, Reporting(st))
    case ExecReport(j) =>
      var st := s.jobs[j].stage.status;
      SetStage(s, j, Finalizing(st)).(control := Post(s.control, Finalize(j, st)))
  }

  /** SubmitJob checks the closed flag and then posts to the control runner, CancelJob
      posts too; a caller takes its reply or, once its context has ended, gives up. */
  function ClientNext(s: State, e: Event): State
    requires IsClient(e) && ClientEnabled(s, e)
  {
    match e
    case SubmitCall(id) => s.(shut := s.shut.(submitting := s.shut.submitting + multiset{id}))
    case PostSubmit(id) =>
      s.(shut := s.shut.(submitting := s.shut.submitting - multiset{id}),
         requests := s.requests + [id], control := Post(s.control, Submit(|s.requests|)))
    case CancelCall(id) => s.(control := Post(s.control, Cancel(id)))
    case EndContext(q) => s.(contextDone := s.contextDone + {q})
    case Receive(q) => s.(returned := s.returned[q := s.controlReply[q]])
    case GiveUp(q) => s.(returned := s.returned[q := false])
  }

  /** Shutdown: the CAS, the control task that cancels every active job, and the poll: a
      Range over activeJobs, which may or may not see a job added meanwhile, and then a
      load of pendingFinalize. */
  function ShutdownNext(s: State, e: Event): State
    requires IsShutdown(e) && ShutdownEnabled(s, e)
  {
    match e
    case CloseManager => s.(shut := s.shut.(closed := true, pc := MarkedClosed))
    case PostCancelAll => s.(control := Post(s.control, CancelAll), shut := s.shut.(pc := AwaitCancels))
    case CancelsDone => s.(shut := s.shut.(pc := Polling))
    case BeginCount => s.(shut := s.shut.(pc := Counting(s.activeJobs.Keys, false)))
    case CountOne(id) =>
      s.(shut := s.shut.(pc := Counting(s.shut.pc.left - {id}, s.shut.pc.seen || id in s.activeJobs)))
    case EndCount => s.(shut := s.shut.(pc := if s.shut.pc.seen then Polling else SawNoneActive))
    case LoadPending => s.(shut := s.shut.(pc := if s.pendingFinalize == 0 then ReturnedNil else Polling))
    case AbandonShutdown => s.(shut := s.shut.(pc := GaveUp))
  }

  function RunnerNext(s: State, e: Event): State
    requires IsRunner(e) && RunnerEnabled(s, e)
  {
    match e
    case ControlBegin => s.(control := Begin(s.control), controlPc := ControlStart(s.control.waiting[0]))
    case ControlEnd => s.(control := End(s.control), controlPc := NoControl)
    case IoBegin => s.(io := Begin(s.io), ioPc := IoStart(s.io.waiting[0]))
    case IoEnd => s.(io := End(s.io), ioPc := NoIo)
  }

  function IoNext(s: State, o: Outcome): State
    requires IoEnabled(s, o)
  {
    if s.ioPc.FinalDone? then DoneNext(s)
    else if Updating(s.ioPc) then UpdateNext(s, o)
    else PersistNext(s, o)
  }

  function Apply(s: State, e: Event): State
    requires Enabled(s, e)
  {
    if IsExec(e) then ExecNext(s, e)
    else if IsClient(e) then ClientNext(s, e)
    else if IsShutdown(e) then ShutdownNext(s, e)
    else if IsRunner(e) then RunnerNext(s, e)
    else if e.RecoverJob? then RecoverNext(s, e.id, e.found)
    else if e.IoStep? then IoNext(s, e.outcome)
    else if e.CancelOne? then CancelOneNext(s, e.id)
    else if Submitting(s.controlPc) then SubmitNext(s, e.choice)
    else FinishNext(s)
  }

  function Manager(): Machine<State, Event> { Machine(Enabled, Apply) }

  // what each group of events does, in terms of its own functions

  lemma ExecApplies(s: State, e: Event)
    requires IsExec(e) && ExecEnabled(s, e)
    ensures Enabled(s, e) && Apply(s, e) == ExecNext(s, e)
  {
    hide ExecEnabled, ExecNext;
  }

  lemma ClientApplies(s: State, e: Event)
    requires IsClient(e) && ClientEnabled(s, e)
    ensures Enabled(s, e) && Apply(s, e) == ClientNext(s, e)
  {
    hide ClientEnabled, ClientNext;
  }

  lemma ShutdownApplies(s: State, e: Event)
    requires IsShutdown(e) && ShutdownEnabled(s, e)
    ensures Enabled(s, e) && Apply(s, e) == ShutdownNext(s, e)
  {
    hide ShutdownEnabled, ShutdownNext;
  }

  lemma TurnApplies(s: State, e: Event)
    requires IsRunner(e) && RunnerEnabled(s, e)
    ensures Enabled(s, e) && Apply(s, e) == RunnerNext(s, e)
  {
    hide RunnerEnabled, RunnerNext;
  }

  lemma RecoverApplies(s: State, id: JobID, found: bool)
    requires RecoverEnabled(s, id)
    ensures Enabled(s, RecoverJob(id, found)) && Apply(s, RecoverJob(id, found)) == RecoverNext(s, id, found)
  {
    hide RecoverEnabled, RecoverNext;
  }

  lemma IoApplies(s: State, o: Outcome)
    requires IoEnabled(s, o)
    ensures Enabled(s, IoStep(o)) && Apply(s, IoStep(o)) == IoNext(s, o)
  {
    hide IoEnabled, IoNext;
  }

  lemma CancelOneApplies(s: State, id: JobID)
    requires s.controlPc.CancelEach? && id in s.controlPc.left
    ensures Enabled(s, CancelOne(id)) && Apply(s, CancelOne(id)) == CancelOneNext(s, id)
  {
    hide CancelOneNext;
  }

  lemma SubmitApplies(s: State, choice: bool)
    requires Submitting(s.controlPc) && ControlEnabled(s, choice)
    ensures Enabled(s, ControlStep(choice)) && Apply(s, ControlStep(choice)) == SubmitNext(s, choice)
  {
    hide ControlEnabled, SubmitNext, FinishNext;
  }

  lemma FinishApplies(s: State)
    requires !Submitting(s.controlPc) && ControlEnabled(s, true)
    ensures Enabled(s, ControlStep(true)) && Apply(s, ControlStep(true)) == FinishNext(s)
  {
    hide ControlEnabled, SubmitNext, FinishNext;
  }

  /** t is the state after event e at s. */
  predicate Took(s: State, e: Event, t: State) { Enabled(s, e) && t == Apply(s, e) }

  // ----- retryIOOperation -----

  /** What one call of fn, or retryIOOperation itself, comes back with. */
  datatype IoError = Nil | AlreadyExists | ContextEnded | Failed(code: nat)

  /** The environment of one call of retryIOOperation: results(i) is what the i-th call
      of fn returns, wrote(i) whether a failing one has written all the same; over(i)
      whether the context has ended when attempt i looks at it, overWhileWaiting(i)
      whether it ends during the delay after attempt i. */
  datatype Surroundings = Surroundings(
    results: nat -> IoError, wrote: nat -> bool, over: nat -> bool, overWhileWaiting: nat -> bool)
  {
    /** The outcome that the events above give attempt i. */
    function OutcomeAt(maxRetries: int, i: nat): Outcome
    {
      if maxRetries < 0 then NoAttempt
      else if over(i) || (i > 0 && overWhileWaiting(i - 1)) then ContextOver
      else match results(i)
           case Nil => Ok
           case AlreadyExists => Exists
           case ContextEnded => ContextOver
           case Failed(_) => Error(wrote(i))
    }
  }

  /** What a call of retryIOOperation that makes so many calls of fn may come back with. */
  ghost predicate Retried(maxRetries: int, env: Surroundings, err: IoError, calls: nat)
  {
    && (maxRetries < 0 ==> err == Nil && calls == 0)
    && (maxRetries >= 0 ==> calls <= maxRetries + 1)
    && (forall i: nat :: i + 1 < calls ==> env.results(i).Failed? && !env.overWhileWaiting(i))
    && (forall i: nat :: i < calls ==> !env.over(i))
    && (maxRetries >= 0 && (err.Nil? || err.AlreadyExists?) ==> calls > 0 && env.results(calls - 1) == err)
    && (err.Failed? ==> calls == maxRetries + 1 && env.results(calls - 1) == err)
    && (err.ContextEnded? ==>
          && calls <= maxRetries
          && (calls > 0 ==> env.results(calls - 1).Failed?)
          && (env.over(calls) || (calls > 0 && env.overWhileWaiting(calls - 1))))
  }

  /** retryIOOperation (job/job_manager.go:488-557). */
  method RetryIOOperation(maxRetries: int, env: Surroundings) returns (err: IoError, calls: nat)
    requires forall i: nat :: !env.results(i).ContextEnded?
    ensures Retried(maxRetries, env, err, calls)
  {
    var lastErr := Nil;
    var attempt := 0;
    calls := 0;
    while attempt <= maxRetries
      invariant calls == attempt && (maxRetries >= 0 ==> attempt <= maxRetries + 1)
      invariant maxRetries < 0 ==> attempt == 0
      invariant forall i: nat :: i < attempt ==>
                  env.results(i).Failed? && !env.over(i) && (i < maxRetries ==> !env.overWhileWaiting(i))
      invariant if attempt == 0 then lastErr == Nil else lastErr == env.results(attempt - 1)
    {
      if env.over(attempt) {
        return ContextEnded, calls;
      }
      var e := env.results(attempt);
      calls := calls + 1;
      if e.Nil? {
        return Nil, calls;
      }
      if e.AlreadyExists? {
        return e, calls;
      }
      lastErr := e;
      if attempt < maxRetries {
        if env.overWhileWaiting(attempt) {
          return ContextEnded, calls;
        }
      }
      attempt := attempt + 1;
    }
    return lastErr, calls;
  }

  /** Such a call makes the attempts that the events above make, up to attempt last, and
      its result is nil, or ErrJobAlreadyExists, exactly when they go on as after that. */
  lemma RetriesAsTheEventsDo(maxRetries: int, env: Surroundings, err: IoError, calls: nat) returns (last: nat)
    requires forall i: nat :: !env.results(i).ContextEnded?
    requires Retried(maxRetries, env, err, calls)
    ensures forall i: nat :: i < last ==> TriesAgain(maxRetries, env.OutcomeAt(maxRetries, i), i)
    ensures !TriesAgain(maxRetries, env.OutcomeAt(maxRetries, last), last)
    ensures NilResult(env.OutcomeAt(maxRetries, last)) <==> err.Nil?
    ensures env.OutcomeAt(maxRetries, last).Exists? <==> err.AlreadyExists?
    ensures calls == (if env.OutcomeAt(maxRetries, last).NoAttempt? || env.OutcomeAt(maxRetries, last).ContextOver?
                      then last else last + 1)
  {
    last := if maxRetries < 0 then 0 else if err.ContextEnded? then calls else calls - 1;
    forall i: nat | i < last ensures TriesAgain(maxRetries, env.OutcomeAt(maxRetries, i), i) {
      assert i < calls && env.results(i).Failed?;
    }
  }
}
