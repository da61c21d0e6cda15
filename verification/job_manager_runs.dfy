/** What holds along every run of the JobManager, and the manager itself. */
module JobManagerRuns {
  import opened Counting
  import opened Runs
  import opened FifoRunner
  import opened JobManagers
  import opened JobManagerInvariant

  // ----- what every run guarantees -----

  /** Per-ID exclusivity: of two instances of an ID the older one is settled, so no two
      handlers of an ID overlap; every instance is scheduled at most once and its
      handler runs at most once. */
  lemma OneInstancePerID(s: State)
    requires Reachable(s)
    ensures forall j, k :: 0 <= j < k < |s.jobs| && s.jobs[j].id == s.jobs[k].id ==>
              Settled(s.jobs[j].stage) && !s.jobs[j].stage.Handling?
    ensures forall j :: 0 <= j < |s.jobs| ==> s.jobs[j].schedules <= 1 && s.jobs[j].handlerRuns <= 1
  {
    ReachableInv(s);
  }

  /** An ID is in activeJobs exactly while an instance of it is between admission and
      finalizeJobControl. */
  lemma ActiveIffLive(s: State, id: JobID)
    requires Reachable(s)
    ensures id in s.activeJobs <==> exists j :: 0 <= j < |s.jobs| && s.jobs[j].id == id && Live(s.jobs[j].stage)
  {
    ReachableInv(s);
  }

  /** An admission that failed in its io step has been taken out again: what holds
      its ID now is a later instance. */
  lemma FailedAdmissionIsOut(s: State, j: nat)
    requires Reachable(s) && j in s.ioReply && !s.ioReply[j]
    ensures j < |s.jobs| && (s.jobs[j].id in s.activeJobs ==> s.activeJobs[s.jobs[j].id] > j)
  {
    ReachableInv(s);
    FailedIsSettled(s.jobs, s.io, s.ioPc, s.ioReply, j);
    ActiveIsNewer(s.jobs, s.activeJobs, j);
  }

  lemma FailedIsSettled(jobs: seq<Job>, io: Fifo<IoTask>, pc: IoPc, replies: map<nat, bool>, j: nat)
    requires IoInv(jobs, io, pc, replies) && j in replies && !replies[j]
    ensures j < |jobs| && jobs[j].stage.Rejected?
  {
  }

  lemma ActiveIsNewer(jobs: seq<Job>, active: map<JobID, nat>, j: nat)
    requires ActiveInv(jobs, active) && NewestInv(jobs) && j < |jobs| && !Live(jobs[j].stage)
    ensures jobs[j].id in active ==> active[jobs[j].id] > j
  {
    if jobs[j].id in active {
      assert Live(jobs[active[jobs[j].id]].stage);
    }
  }

  function Progress(st: Status): nat { if st.PENDING? then 0 else if st.RUNNING? then 1 else 2 }

  /** Two writes concern the same ID. */
  predicate SameID(s: State, i: nat, k: nat)
    requires i < |s.writes| && k < |s.writes|
  {
    && s.writes[i].job < |s.jobs| && s.writes[k].job < |s.jobs|
    && s.jobs[s.writes[i].job].id == s.jobs[s.writes[k].job].id
  }

  /** Of two writes of an ID the later one is of a later instance, or of the same
      instance and further on, or a retry of the very same write. */
  lemma StatusMovesForward(s: State, i: nat, k: nat)
    requires Reachable(s) && i < k < |s.writes| && SameID(s, i, k)
    ensures || s.writes[i].job < s.writes[k].job
            || (s.writes[i].job == s.writes[k].job
                && (Progress(s.writes[i].status) < Progress(s.writes[k].status)
                      || s.writes[i].status == s.writes[k].status))
  {
    hide ActiveInv, NewestInv, JobInv, PendingInv, RequestInv, ControlInv, FinalizeInv, ReplyInv, RecordInv,
         IoInv, Reachable;
    ReachableInv(s);
    WritesInOrder(s.jobs, s.io.Log(), Begun(s), s.writes, s.store, i, k);
  }

  lemma WritesInOrder(jobs: seq<Job>, log: seq<IoTask>, begun: nat, writes: seq<Write>, store: map<JobID, Status>,
          i: nat, k: nat)
    requires LogInv(jobs, log) && WriteInv(jobs, log, begun, writes, store)
    requires i < k < |writes| && jobs[writes[i].job].id == jobs[writes[k].job].id
    ensures || writes[i].job < writes[k].job
            || (writes[i].job == writes[k].job
                && (Progress(writes[i].status) < Progress(writes[k].status) || writes[i].status == writes[k].status))
  {
    hide LogInv, WriteInv;
    var p, r := writes[i].pos, writes[k].pos;
    WriteIsLogged(jobs, log, begun, writes, store, i, k);
    if p < r {
      LogInOrder(jobs, log, p, r);
    }
  }

  lemma WriteIsLogged(jobs: seq<Job>, log: seq<IoTask>, begun: nat, writes: seq<Write>, store: map<JobID, Status>,
          i: nat, k: nat)
    requires WriteInv(jobs, log, begun, writes, store) && i < k < |writes|
    ensures writes[i].pos <= writes[k].pos < |log|
    ensures log[writes[i].pos].job == writes[i].job && log[writes[k].pos].job == writes[k].job
    ensures StatusOf(log[writes[i].pos]) == writes[i].status && StatusOf(log[writes[k].pos]) == writes[k].status
  {
  }

  lemma LogInOrder(jobs: seq<Job>, log: seq<IoTask>, p: nat, r: nat)
    requires LogInv(jobs, log) && p < r < |log| && jobs[log[p].job].id == jobs[log[r].job].id
    ensures Before(log[p].job, Rank(log[p]), log[r].job, Rank(log[r]))
    ensures Progress(StatusOf(log[p])) == Rank(log[p]) && Progress(StatusOf(log[r])) == Rank(log[r])
  {
    RanksAreProgress(jobs, log, p);
    RanksAreProgress(jobs, log, r);
  }

  lemma RanksAreProgress(jobs: seq<Job>, log: seq<IoTask>, p: nat)
    requires LogInv(jobs, log) && p < |log|
    ensures Progress(StatusOf(log[p])) == Rank(log[p])
  {
  }

  /** A terminal status stays: while no later instance of the ID has written, the
      store shows it. */
  lemma TerminalStays(s: State, i: nat)
    requires Reachable(s) && i < |s.writes| && Terminal(s.writes[i].status)
    requires forall k :: 0 <= k < |s.writes| && SameID(s, i, k) ==> s.writes[k].job <= s.writes[i].job
    ensures s.writes[i].job < |s.jobs|
    ensures var id := s.jobs[s.writes[i].job].id; id in s.store && s.store[id] == s.writes[i].status
  {
    hide ActiveInv, NewestInv, JobInv, PendingInv, RequestInv, ControlInv, FinalizeInv, ReplyInv, RecordInv,
         IoInv, Reachable;
    ReachableInv(s);
    var k := LastWrite(s.jobs, s.writes, i);
    if i < k {
      assert SameID(s, i, k);
      StatusMovesForward(s, i, k);
    }
  }

  lemma LastWrite(jobs: seq<Job>, writes: seq<Write>, i: nat) returns (k: nat)
    requires forall m :: 0 <= m < |writes| ==> writes[m].job < |jobs|
    requires i < |writes|
    ensures i <= k < |writes| && jobs[writes[k].job].id == jobs[writes[i].job].id && NoLaterWrite(jobs, writes, k)
    decreases |writes| - i
  {
    if NoLaterWrite(jobs, writes, i) {
      k := i;
    } else {
      var m :| i < m < |writes| && jobs[writes[m].job].id == jobs[writes[i].job].id;
      k := LastWrite(jobs, writes, m);
    }
  }

  /** A nil SubmitJob admitted exactly one instance, scheduled exactly once; its
      record was written if and only if the retry policy allows an attempt at all. */
  lemma NilMeansScheduledAndRecordedIff(s: State, q: nat) returns (j: nat)
    requires Reachable(s) && q in s.returned && s.returned[q]
    ensures j < |s.jobs| && s.jobs[j].request == Some(q) && s.jobs[j].schedules == 1
    ensures forall k :: 0 <= k < |s.jobs| && s.jobs[k].request == Some(q) ==> k == j
    ensures Recorded(s.writes, j) <==> s.maxRetries >= 0
  {
    ReachableInv(s);
    assert Kept(s, q);
    j :| Acknowledged(s, q, j);
    assert Started(s.jobs[j].stage);
  }

  predicate Internal(e: Event) { !IsClient(e) && !IsShutdown(e) && !e.RecoverJob? }

  ghost predicate Quiescent(s: State)
  {
    forall e :: Internal(e) ==> !Enabled(s, e)
  }

  /** Whatever cancellations and store failures a run has seen: once only clients and
      Shutdown can move, every instance is settled, nothing is active and no runner holds a
      task, so no job is left behind. */
  lemma NothingLeftBehind(s: State)
    requires Reachable(s) && Quiescent(s)
    ensures s.activeJobs == map[] && forall j :: 0 <= j < |s.jobs| ==> Settled(s.jobs[j].stage)
    ensures s.control.Idle() && s.io.Idle() && s.pendingFinalize == 0
  {
    ReachableInv(s);
    QuietRunners(s);
    QuietIo(s);
    assert forall id :: !Enabled(s, CancelOne(id));
    QuietControl(s);
    forall j | 0 <= j < |s.jobs| ensures Settled(s.jobs[j].stage) {
      QuietJob(s, j);
    }
    assert s.activeJobs == map[] by {
      forall id ensures id !in s.activeJobs {
        ActiveIffLive(s, id);
      }
    }
  }

  /** No step of the runners is possible. */
  ghost predicate RunnersQuiet(s: State)
  {
    && !RunnerEnabled(s, IoBegin) && !RunnerEnabled(s, IoEnd)
    && !RunnerEnabled(s, ControlBegin) && !RunnerEnabled(s, ControlEnd)
    && !ControlEnabled(s, true) && forall o :: !IoEnabled(s, o)
  }

  lemma QuietRunners(s: State)
    requires Quiescent(s)
    ensures RunnersQuiet(s)
  {
    hide Enabled, RunnerEnabled, ControlEnabled, IoEnabled;
    RunnerSteps(s);
  }

  lemma RunnerSteps(s: State)
    ensures forall o :: Enabled(s, IoStep(o)) <==> IoEnabled(s, o)
    ensures Enabled(s, ControlStep(true)) <==> ControlEnabled(s, true)
    ensures Enabled(s, IoBegin) <==> RunnerEnabled(s, IoBegin)
    ensures Enabled(s, IoEnd) <==> RunnerEnabled(s, IoEnd)
    ensures Enabled(s, ControlBegin) <==> RunnerEnabled(s, ControlBegin)
    ensures Enabled(s, ControlEnd) <==> RunnerEnabled(s, ControlEnd)
  {
    hide RunnerEnabled, ControlEnabled, IoEnabled;
  }

  lemma QuietIo(s: State)
    requires Inv(s) && RunnersQuiet(s)
    ensures s.io.Idle() && s.ioPc.NoIo?
  {
    hide ActiveInv, NewestInv, JobInv, PendingInv, RequestInv, ControlInv, FinalizeInv, ReplyInv, RecordInv, WriteInv;
    CurrentIsLogged(s);
    hide LogInv, IoEnabled, ControlEnabled;
    assert !RunnerEnabled(s, IoBegin) && !RunnerEnabled(s, IoEnd);
    assert !IoEnabled(s, Ok) && !IoEnabled(s, Error(false)) && !IoEnabled(s, NoAttempt);
    if !s.ioPc.NoIo? && !s.ioPc.IoOver? {
      IoMoves(s);
    }
  }

  lemma IoMoves(s: State)
    requires IoInv(s.jobs, s.io, s.ioPc, s.ioReply) && !s.ioPc.NoIo? && !s.ioPc.IoOver?
    requires s.io.current.Some? ==> s.io.current.value.job < |s.jobs|
    ensures IoEnabled(s, Ok) || IoEnabled(s, Error(false)) || IoEnabled(s, NoAttempt)
  {
  }

  lemma CurrentIsLogged(s: State)
    requires LogInv(s.jobs, s.io.Log())
    ensures s.io.current.Some? ==> s.io.current.value.job < |s.jobs|
  {
    if s.io.current.Some? {
      assert s.io.Log()[|s.io.finished|] == s.io.current.value;
    }
  }

  lemma QuietControl(s: State)
    requires Inv(s) && RunnersQuiet(s) && s.io.Idle() && s.ioPc.NoIo?
    requires forall id :: !Enabled(s, CancelOne(id))
    ensures s.control.Idle() && s.controlPc.NoControl?
  {
    hide NewestInv, JobInv, PendingInv, RequestInv, FinalizeInv, RecordInv, LogInv, WriteInv, IoInv, IoEnabled, Enabled;
    if s.controlPc.CancelEach? {
      CancelEachMoves(s);
    }
  }

  lemma CancelEachMoves(s: State)
    requires s.controlPc.CancelEach?
    ensures ControlEnabled(s, true) || exists id :: Enabled(s, CancelOne(id))
  {
    if s.controlPc.left != {} {
      var id: JobID :| id in s.controlPc.left;
      assert Enabled(s, CancelOne(id));
    }
  }

  lemma QuietJob(s: State, j: nat)
    requires Inv(s) && Quiescent(s) && s.io.Idle() && s.ioPc.NoIo? && s.control.Idle() && s.controlPc.NoControl?
    requires j < |s.jobs|
    ensures Settled(s.jobs[j].stage)
  {
    hide ActiveInv, NewestInv, JobInv, PendingInv, RequestInv, ReplyInv, RecordInv, LogInv, WriteInv;
    assert !Enabled(s, ExecCheck(j)) && !Enabled(s, ExecAnnounce(j)) && !Enabled(s, ExecReport(j));
    assert !Enabled(s, ExecHandle(j, COMPLETED));
  }

  // ----- the manager itself -----

  lemma KnownJobs(s: State)
    requires s.controlPc.FinalLoad? && ControlEnabled(s, true)
    ensures var j := s.controlPc.j;
            j < |s.jobs| && (s.jobs[j].id in s.activeJobs ==> s.activeJobs[s.jobs[j].id] < |s.jobs|)
  {
  }

  lemma Removes(s: State, t: State)
    requires s.controlPc.FinalLoad? && ControlEnabled(s, true) && t == RemoveNext(s)
    ensures Took(s, ControlStep(true), t) && (Reachable(s) ==> Reachable(t))
  {
    hide Reachable, RemoveNext;
    FinishApplies(s);
    hide Enabled, Apply;
    if Reachable(s) {
      Next(s, ControlStep(true));
    }
  }

  lemma ConcludeApplies(s: State, o: Outcome)
    requires s.ioPc.Final? && IoEnabled(s, o)
    ensures Enabled(s, IoStep(o))
    ensures var again, wrote := TriesAgain(s.maxRetries, o, s.ioPc.attempt), s.ioPc.wrote || Wrote(o);
            Apply(s, IoStep(o)) == Attempted(s, s.ioPc.j, s.ioPc.status, o).(
              ioPc := if again then Final(s.ioPc.j, s.ioPc.attempt + 1, s.ioPc.status, s.ioPc.counted, wrote)
                      else FinalDone(s.ioPc.counted),
              unwritten := if again || wrote then s.unwritten else s.unwritten + {s.ioPc.j})
  {
    IoApplies(s, o);
    hide Apply, Attempted;
  }

  class JobManager {
    const durable: bool                  // the store implements DurableJobStore
    const maxRetries: int
    var control: Fifo<ControlTask>
    var controlPc: ControlPc
    var io: Fifo<IoTask>
    var ioPc: IoPc
    var activeJobs: map<JobID, nat>
    var jobs: seq<Job>
    var requests: seq<JobID>
    var contextDone: set<nat>
    var cancelled: set<nat>
    var store: map<JobID, Status>
    var pendingFinalize: int
    var ioReply: map<nat, bool>
    var controlReply: map<nat, bool>
    var returned: map<nat, bool>
    var shut: Shut
    ghost var writes: seq<Write>
    ghost var unwritten: set<nat>

    ghost function Snapshot(): State
      reads this
    {
      State(durable, maxRetries, control, controlPc, io, ioPc, activeJobs, jobs, requests, contextDone, cancelled,
            store, pendingFinalize, ioReply, controlReply, returned, writes, unwritten, shut)
    }

    /** The fields are those of a reachable state, so everything above holds of them. */
    ghost predicate Valid()
      reads this
    {
      Reachable(Snapshot())
    }

    constructor (isDurable: bool, retries: int, records: map<JobID, Status>)
      ensures Valid() && Snapshot() == Init(isDurable, retries, records)
    {
      durable, maxRetries, store := isDurable, retries, records;
      control, controlPc, io, ioPc := Empty(), NoControl, Empty(), NoIo;
      activeJobs, jobs, requests, contextDone, cancelled := map[], [], [], {}, {};
      pendingFinalize, ioReply, controlReply, returned, writes, unwritten := 0, map[], map[], map[], [], {};
      shut := Shut(false, multiset{}, false, NotCalled);
      new;
      ReachesItself(Manager(), Init(isDurable, retries, records));
    }

    // clients

    /** SubmitJob loads the closed flag, */
    method SubmitJob(id: JobID)
      requires Valid() && !shut.closed
      modifies this
      ensures Valid() && Took(old(Snapshot()), SubmitCall(id), Snapshot())
    {
      hide Reachable, Enabled, Apply;
      ClientApplies(Snapshot(), SubmitCall(id));
      Next(Snapshot(), SubmitCall(id));
      hide ClientEnabled;
      shut := shut.(submitting := shut.submitting + multiset{id});
    }

    /** then posts to the control runner, */
    method PostSubmitTask(id: JobID)
      requires Valid() && id in shut.submitting
      modifies this
      ensures Valid() && Took(old(Snapshot()), PostSubmit(id), Snapshot())
    {
      hide Reachable, Enabled, Apply;
      ClientApplies(Snapshot(), PostSubmit(id));
      Next(Snapshot(), PostSubmit(id));
      hide ClientEnabled;
      shut := shut.(submitting := shut.submitting - multiset{id});
      control := Post(control, Submit(|requests|));
      requests := requests + [id];
    }

    method CancelJob(id: JobID)
      requires Valid()
      modifies this
      ensures Valid() && Took(old(Snapshot()), CancelCall(id), Snapshot())
    {
      hide Reachable, Enabled, Apply;
      ClientApplies(Snapshot(), CancelCall(id));
      Next(Snapshot(), CancelCall(id));
      hide ClientEnabled;
      control := Post(control, Cancel(id));
    }

    method EndCallerContext(q: nat)
      requires Valid() && q < |requests|
      modifies this
      ensures Valid() && Took(old(Snapshot()), EndContext(q), Snapshot())
    {
      hide Reachable, Enabled, Apply;
      ClientApplies(Snapshot(), EndContext(q));
      Next(Snapshot(), EndContext(q));
      hide ClientEnabled;
      contextDone := contextDone + {q};
    }

    /** and waits for its reply, */
    method ReceiveReply(q: nat)
      requires Valid() && q in controlReply && q !in returned
      modifies this
      ensures Valid() && Took(old(Snapshot()), Receive(q), Snapshot())
    {
      hide Reachable, Enabled, Apply;
      ClientApplies(Snapshot(), Receive(q));
      Next(Snapshot(), Receive(q));
      hide ClientEnabled;
      returned := returned[q := controlReply[q]];
    }

    /** or for the end of its context. */
    method AbandonCall(q: nat)
      requires Valid() && q in contextDone && q !in returned
      modifies this
      ensures Valid() && Took(old(Snapshot()), GiveUp(q), Snapshot())
    {
      hide Reachable, Enabled, Apply;
      ClientApplies(Snapshot(), GiveUp(q));
      Next(Snapshot(), GiveUp(q));
      hide ClientEnabled;
      returned := returned[q := false];
    }

    // Shutdown

    /** The CAS on closed, */
    method MarkClosed()
      requires Valid() && !shut.closed
      modifies this
      ensures Valid() && Took(old(Snapshot()), CloseManager, Snapshot())
    {
      hide Reachable, Enabled, Apply;
      ShutdownApplies(Snapshot(), CloseManager);
      Next(Snapshot(), CloseManager);
      hide ShutdownEnabled;
      shut := shut.(closed := true, pc := MarkedClosed);
    }

    /** the control task that cancels every active job, */
    method PostCancelTask()
      requires Valid() && shut.pc.MarkedClosed?
      modifies this
      ensures Valid() && Took(old(Snapshot()), PostCancelAll, Snapshot())
    {
      hide Reachable, Enabled, Apply;
      ShutdownApplies(Snapshot(), PostCancelAll);
      Next(Snapshot(), PostCancelAll);
      hide ShutdownEnabled;
      control := Post(control, CancelAll);
      shut := shut.(pc := AwaitCancels);
    }

    /** the wait for it, */
    method AwaitCancelTask()
      requires Valid() && shut.pc.AwaitCancels? && shut.cancelsDone
      modifies this
      ensures Valid() && Took(old(Snapshot()), CancelsDone, Snapshot())
    {
      hide Reachable, Enabled, Apply;
      ShutdownApplies(Snapshot(), CancelsDone);
      Next(Snapshot(), CancelsDone);
      hide ShutdownEnabled;
      shut := shut.(pc := Polling);
    }

    /** the Range of GetActiveJobCount: its start, */
    method StartCount()
      requires Valid() && shut.pc.Polling?
      modifies this
      ensures Valid() && Took(old(Snapshot()), BeginCount, Snapshot())
    {
      hide Reachable, Enabled, Apply;
      ShutdownApplies(Snapshot(), BeginCount);
      Next(Snapshot(), BeginCount);
      hide ShutdownEnabled;
      shut := shut.(pc := Counting(activeJobs.Keys, false));
    }

    /** one key, */
    method CountKey(id: JobID)
      requires Valid() && shut.pc.Counting? && (id in shut.pc.left || id in activeJobs)
      modifies this
      ensures Valid() && Took(old(Snapshot()), CountOne(id), Snapshot())
    {
      hide Reachable, Enabled, Apply;
      ShutdownApplies(Snapshot(), CountOne(id));
      Next(Snapshot(), CountOne(id));
      hide ShutdownEnabled;
      if id in activeJobs {
        shut := shut.(pc := Counting(shut.pc.left - {id}, true));
      } else {
        shut := shut.(pc := Counting(shut.pc.left - {id}, shut.pc.seen));
      }
    }

    /** and its result, */
    method FinishCount()
      requires Valid() && shut.pc.Counting? && shut.pc.left == {}
      modifies this
      ensures Valid() && Took(old(Snapshot()), EndCount, Snapshot())
    {
      hide Reachable, Enabled, Apply;
      ShutdownApplies(Snapshot(), EndCount);
      Next(Snapshot(), EndCount);
      hide ShutdownEnabled;
      if shut.pc.seen {
        shut := shut.(pc := Polling);
      } else {
        shut := shut.(pc := SawNoneActive);
      }
    }

    /** the load of pendingFinalize, */
    method PollPending()
      requires Valid() && shut.pc.SawNoneActive?
      modifies this
      ensures Valid() && Took(old(Snapshot()), LoadPending, Snapshot())
    {
      hide Reachable, Enabled, Apply;
      ShutdownApplies(Snapshot(), LoadPending);
      Next(Snapshot(), LoadPending);
      hide ShutdownEnabled;
      if pendingFinalize == 0 {
        shut := shut.(pc := ReturnedNil);
      } else {
        shut := shut.(pc := Polling);
      }
    }

    /** or the end of its caller's context. */
    method GiveUpShutdown()
      requires Valid() && (shut.pc.AwaitCancels? || shut.pc.Polling?)
      modifies this
      ensures Valid() && Took(old(Snapshot()), AbandonShutdown, Snapshot())
    {
      hide Reachable, Enabled, Apply;
      ShutdownApplies(Snapshot(), AbandonShutdown);
      Next(Snapshot(), AbandonShutdown);
      hide ShutdownEnabled;
      shut := shut.(pc := GaveUp);
    }

    // the control runner

    /** One recovered record. */
    method Recover(id: JobID, found: bool)
      requires Valid() && RecoverEnabled(Snapshot(), id)
      modifies this
      ensures Valid() && Took(old(Snapshot()), RecoverJob(id, found), Snapshot())
    {
      hide Reachable, Enabled, Apply;
      RecoverApplies(Snapshot(), id, found);
      Next(Snapshot(), RecoverJob(id, found));
      hide RecoverEnabled;
      if found {
        activeJobs := activeJobs[id := |jobs|];
        jobs := jobs + [Job(id, None, Scheduled, 1, 0)];
      } else {
        io := Post(io, SetFinal(|jobs|, FAILED, false));
        jobs := jobs + [Job(id, None, Unrunnable, 0, 0)];
      }
    }

    method BeginControl()
      requires Valid() && controlPc.NoControl? && CanBegin(control)
      modifies this
      ensures Valid() && Took(old(Snapshot()), ControlBegin, Snapshot())
    {
      hide Reachable, Enabled, Apply;
      TurnApplies(Snapshot(), ControlBegin);
      Next(Snapshot(), ControlBegin);
      hide RunnerEnabled;
      controlPc := ControlStart(control.waiting[0]);
      control := Begin(control);
    }

    method EndControl()
      requires Valid() && controlPc.ControlOver? && control.current.Some?
      modifies this
      ensures Valid() && Took(old(Snapshot()), ControlEnd, Snapshot())
    {
      hide Reachable, Enabled, Apply;
      TurnApplies(Snapshot(), ControlEnd);
      Next(Snapshot(), ControlEnd);
      hide RunnerEnabled;
      control, controlPc := End(control), NoControl;
    }

    /** submitJobControl: the duplicate check, */
    method CheckDuplicate()
      requires Valid() && controlPc.SubmitLoad? && controlPc.q < |requests|
      modifies this
      ensures Valid() && Took(old(Snapshot()), ControlStep(true), Snapshot())
    {
      hide Reachable, Enabled, Apply, AdmitNext, HandOverNext;
      SubmitApplies(Snapshot(), true);
      Next(Snapshot(), ControlStep(true));
      hide ControlEnabled;
      if requests[controlPc.q] in activeJobs {
        controlReply := controlReply[controlPc.q := false];
        controlPc := ControlOver;
      } else {
        controlPc := SubmitHandler(controlPc.q);
      }
    }

    /** the handler, */
    method LoadHandler(found: bool)
      requires Valid() && controlPc.SubmitHandler? && controlPc.q < |requests|
      modifies this
      ensures Valid() && Took(old(Snapshot()), ControlStep(found), Snapshot())
    {
      hide Reachable, Enabled, Apply, AdmitNext, HandOverNext;
      SubmitApplies(Snapshot(), found);
      Next(Snapshot(), ControlStep(found));
      hide ControlEnabled;
      if found {
        controlPc := SubmitStore(controlPc.q);
      } else {
        controlReply := controlReply[controlPc.q := false];
        controlPc := ControlOver;
      }
    }

    /** activeJobs.Store, */
    method StoreActive()
      requires Valid() && controlPc.SubmitStore? && controlPc.q < |requests|
      modifies this
      ensures Valid() && Took(old(Snapshot()), ControlStep(true), Snapshot())
    {
      hide Reachable, Enabled, Apply, LookNext, HandOverNext;
      SubmitApplies(Snapshot(), true);
      Next(Snapshot(), ControlStep(true));
      hide ControlEnabled;
      var q := controlPc.q;
      activeJobs := activeJobs[requests[q] := |jobs|];
      controlPc := SubmitPost(q, |jobs|);
      jobs := jobs + [Job(requests[q], Some(q), Admitted, 0, 0)];
    }

    /** the io task, */
    method PostPersist()
      requires Valid() && controlPc.SubmitPost? && controlPc.j < |jobs|
      modifies this
      ensures Valid() && Took(old(Snapshot()), ControlStep(true), Snapshot())
    {
      hide Reachable, Enabled, Apply, LookNext, AdmitNext;
      SubmitApplies(Snapshot(), true);
      Next(Snapshot(), ControlStep(true));
      hide ControlEnabled;
      var j := controlPc.j;
      jobs := jobs[j := jobs[j].(stage := Persisting)];
      io := Post(io, Persist(j));
      controlPc := SubmitAwait(controlPc.q, j);
    }

    /** and the wait for it or for the caller's context. */
    method AwaitPersist(replied: bool)
      requires Valid() && controlPc.SubmitAwait? && ControlEnabled(Snapshot(), replied)
      modifies this
      ensures Valid() && Took(old(Snapshot()), ControlStep(replied), Snapshot())
    {
      hide Reachable, Enabled, Apply, AdmitNext, HandOverNext;
      SubmitApplies(Snapshot(), replied);
      Next(Snapshot(), ControlStep(replied));
      hide ControlEnabled;
      controlReply := controlReply[controlPc.q := replied && ioReply[controlPc.j]];
      controlPc := ControlOver;
    }

    /** cancelJobControl. */
    method LoadForCancel()
      requires Valid() && controlPc.CancelLoad?
      modifies this
      ensures Valid() && Took(old(Snapshot()), ControlStep(true), Snapshot())
    {
      hide Reachable, Enabled, Apply, RemoveNext, MarkNext, FinalPostNext;
      FinishApplies(Snapshot());
      Next(Snapshot(), ControlStep(true));
      hide ControlEnabled;
      if controlPc.id in activeJobs {
        controlPc := CancelCancel(activeJobs[controlPc.id]);
      } else {
        controlPc := ControlOver;
      }
    }

    method CallCancel()
      requires Valid() && controlPc.CancelCancel?
      modifies this
      ensures Valid() && Took(old(Snapshot()), ControlStep(true), Snapshot())
    {
      hide Reachable, Enabled, Apply, RemoveNext, MarkNext, FinalPostNext;
      FinishApplies(Snapshot());
      Next(Snapshot(), ControlStep(true));
      hide ControlEnabled;
      cancelled := cancelled + {controlPc.j};
      controlPc := ControlOver;
    }

    /** Shutdown's control task: the keys of activeJobs, */
    method StartCancelAll()
      requires Valid() && controlPc.CancelAllStart?
      modifies this
      ensures Valid() && Took(old(Snapshot()), ControlStep(true), Snapshot())
    {
      hide Reachable, Enabled, Apply, RemoveNext, MarkNext, FinalPostNext;
      FinishApplies(Snapshot());
      Next(Snapshot(), ControlStep(true));
      hide ControlEnabled;
      controlPc := CancelEach(activeJobs.Keys);
    }

    /** one of them, */
    method CancelKey(id: JobID)
      requires Valid() && controlPc.CancelEach? && id in controlPc.left
      modifies this
      ensures Valid() && Took(old(Snapshot()), CancelOne(id), Snapshot())
    {
      hide Reachable, Enabled, Apply;
      CancelOneApplies(Snapshot(), id);
      Next(Snapshot(), CancelOne(id));
      if id in activeJobs {
        cancelled := cancelled + {activeJobs[id]};
      }
      controlPc := CancelEach(controlPc.left - {id});
    }

    /** and close(doneChan). */
    method FinishCancelAll()
      requires Valid() && controlPc.CancelEach? && controlPc.left == {}
      modifies this
      ensures Valid() && Took(old(Snapshot()), ControlStep(true), Snapshot())
    {
      hide Reachable, Enabled, Apply, RemoveNext, MarkNext, FinalPostNext;
      FinishApplies(Snapshot());
      Next(Snapshot(), ControlStep(true));
      hide ControlEnabled;
      shut := shut.(cancelsDone := true);
      controlPc := ControlOver;
    }

    /** finalizeJobControl: LoadAndDelete, */
    method LoadAndDelete()
      requires Valid() && controlPc.FinalLoad? && ControlEnabled(Snapshot(), true)
      modifies this
      ensures Valid() && Took(old(Snapshot()), ControlStep(true), Snapshot())
    {
      hide Reachable, Took, ControlEnabled;
      ghost var was := Snapshot();
      KnownJobs(was);
      var id, st := jobs[controlPc.j].id, controlPc.status;
      if id !in activeJobs {
        controlPc := ControlOver;
      } else {
        var j := activeJobs[id];
        activeJobs := activeJobs - {id};
        jobs := jobs[j := jobs[j].(stage := Removed(st))];
        controlPc := FinalCancel(j, st);
      }
      Removes(was, Snapshot());
    }

    /** cancel, */
    method CancelFinished()
      requires Valid() && controlPc.FinalCancel?
      modifies this
      ensures Valid() && Took(old(Snapshot()), ControlStep(true), Snapshot())
    {
      hide Reachable, Enabled, Apply, CancelNext, RemoveNext, FinalPostNext;
      FinishApplies(Snapshot());
      Next(Snapshot(), ControlStep(true));
      hide ControlEnabled;
      cancelled := cancelled + {controlPc.j};
      controlPc := FinalAdd(controlPc.j, controlPc.status);
    }

    /** pendingFinalize.Add(1) */
    method AddPending()
      requires Valid() && controlPc.FinalAdd?
      modifies this
      ensures Valid() && Took(old(Snapshot()), ControlStep(true), Snapshot())
    {
      hide Reachable, Enabled, Apply, CancelNext, RemoveNext, FinalPostNext;
      FinishApplies(Snapshot());
      Next(Snapshot(), ControlStep(true));
      hide ControlEnabled;
      pendingFinalize := pendingFinalize + 1;
      controlPc := FinalPost(controlPc.j, controlPc.status);
    }

    /** and the final write. */
    method PostFinalWrite()
      requires Valid() && controlPc.FinalPost? && controlPc.j < |jobs|
      modifies this
      ensures Valid() && Took(old(Snapshot()), ControlStep(true), Snapshot())
    {
      hide Reachable, Enabled, Apply, CancelNext, RemoveNext, MarkNext;
      FinishApplies(Snapshot());
      Next(Snapshot(), ControlStep(true));
      hide ControlEnabled;
      var j, st := controlPc.j, controlPc.status;
      jobs := jobs[j := jobs[j].(stage := Closed(st))];
      io := Post(io, SetFinal(j, st, true));
      controlPc := ControlOver;
      assert Snapshot() == old(Snapshot()).(jobs := jobs, io := io, controlPc := controlPc);
    }

    // the io runner

    method BeginIo()
      requires Valid() && ioPc.NoIo? && CanBegin(io)
      modifies this
      ensures Valid() && Took(old(Snapshot()), IoBegin, Snapshot())
    {
      hide Reachable, Enabled, Apply;
      TurnApplies(Snapshot(), IoBegin);
      Next(Snapshot(), IoBegin);
      hide RunnerEnabled;
      ioPc := IoStart(io.waiting[0]);
      io := Begin(io);
    }

    method EndIo()
      requires Valid() && ioPc.IoOver? && io.current.Some?
      modifies this
      ensures Valid() && Took(old(Snapshot()), IoEnd, Snapshot())
    {
      hide Reachable, Enabled, Apply;
      TurnApplies(Snapshot(), IoEnd);
      Next(Snapshot(), IoEnd);
      hide RunnerEnabled;
      io, ioPc := End(io), NoIo;
    }

    /** jobCtx.Err() != nil */
    function ContextOver(j: nat): bool
      requires j < |jobs|
      reads this
    {
      j in cancelled || (jobs[j].request.Some? && jobs[j].request.value in contextDone)
    }

    /** submitJobIO's look at the job's context before the write, */
    method CheckBeforePersist()
      requires Valid() && ioPc.FirstCheck? && ioPc.j < |jobs|
      modifies this
      ensures Valid() && Took(old(Snapshot()), IoStep(Ok), Snapshot())
    {
      hide Reachable, Enabled, Apply, CreateNext, DecideNext, AnswerNext, UpdateNext, DoneNext;
      IoApplies(Snapshot(), Ok);
      Next(Snapshot(), IoStep(Ok));
      hide IoEnabled;
      if ContextOver(ioPc.j) {
        ioPc := Delete(ioPc.j);
      } else if durable {
        ioPc := Create(ioPc.j, 0);
      } else {
        ioPc := LegacyGet(ioPc.j);
      }
    }

    /** and after it. */
    method CheckAfterPersist()
      requires Valid() && ioPc.SecondCheck? && ioPc.j < |jobs|
      modifies this
      ensures Valid() && Took(old(Snapshot()), IoStep(Ok), Snapshot())
    {
      hide Reachable, Enabled, Apply, CreateNext, DecideNext, AnswerNext, UpdateNext, DoneNext;
      IoApplies(Snapshot(), Ok);
      Next(Snapshot(), IoStep(Ok));
      hide IoEnabled;
      if ContextOver(ioPc.j) {
        ioPc := Delete(ioPc.j);
      } else {
        ioPc := Schedule(ioPc.j);
      }
    }

    /** persistNewJobIO's fallback: GetJob. */
    method GetLegacy(o: Outcome)
      requires Valid() && ioPc.LegacyGet? && IoEnabled(Snapshot(), o)
      modifies this
      ensures Valid() && Took(old(Snapshot()), IoStep(o), Snapshot())
    {
      hide Reachable, Enabled, Apply, CreateNext, DecideNext, AnswerNext, UpdateNext, DoneNext;
      IoApplies(Snapshot(), o);
      Next(Snapshot(), IoStep(o));
      hide IoEnabled;
      if o == Exists {
        ioPc := Delete(ioPc.j);
      } else {
        ioPc := Create(ioPc.j, 0);
      }
    }

    /** What one attempt of a store operation leaves behind; its caller is midway. */
    method AttemptWrite(j: nat, status: Status, o: Outcome)
      requires j < |jobs|
      modifies this
      ensures Snapshot() == Attempted(old(Snapshot()), j, status, o)
    {
      if Wrote(o) {
        store := store[jobs[j].id := status];
        writes := writes + [Write(|io.finished|, j, status)];
      }
    }

    /** One attempt of CreateJob or SaveJob. */
    method CreateRecord(o: Outcome)
      requires Valid() && ioPc.Create? && IoEnabled(Snapshot(), o)
      modifies this
      ensures Valid() && Took(old(Snapshot()), IoStep(o), Snapshot())
    {
      hide Reachable, Enabled, Apply, CheckNext, DecideNext, AnswerNext, UpdateNext, DoneNext;
      IoApplies(Snapshot(), o);
      Next(Snapshot(), IoStep(o));
      hide IoEnabled;
      var j, attempt := ioPc.j, ioPc.attempt;
      AttemptWrite(j, PENDING, o);
      if o == Ok || o == NoAttempt {
        ioPc := SecondCheck(j);
      } else if o.Error? && attempt < maxRetries {
        ioPc := Create(j, attempt + 1);
      } else {
        ioPc := Delete(j);
      }
    }

    /** scheduleExecution. */
    method ScheduleExecution()
      requires Valid() && ioPc.Schedule? && ioPc.j < |jobs|
      modifies this
      ensures Valid() && Took(old(Snapshot()), IoStep(Ok), Snapshot())
    {
      hide Reachable, Enabled, Apply, CheckNext, CreateNext, AnswerNext, UpdateNext, DoneNext;
      IoApplies(Snapshot(), Ok);
      Next(Snapshot(), IoStep(Ok));
      hide IoEnabled;
      var j := ioPc.j;
      jobs := jobs[j := jobs[j].(stage := Scheduled, schedules := jobs[j].schedules + 1)];
      ioPc := Reply(j, true);
    }

    /** A failed admission takes its ID out again. */
    method DeleteActive()
      requires Valid() && ioPc.Delete? && ioPc.j < |jobs|
      modifies this
      ensures Valid() && Took(old(Snapshot()), IoStep(Ok), Snapshot())
    {
      hide Reachable, Enabled, Apply, CheckNext, CreateNext, AnswerNext, UpdateNext, DoneNext;
      IoApplies(Snapshot(), Ok);
      Next(Snapshot(), IoStep(Ok));
      hide IoEnabled;
      var j := ioPc.j;
      activeJobs := activeJobs - {jobs[j].id};
      jobs := jobs[j := jobs[j].(stage := Rejected)];
      ioPc := CancelInfo(j);
    }

    method AnswerSubmit()
      requires Valid() && (ioPc.CancelInfo? || ioPc.Reply?)
      modifies this
      ensures Valid() && Took(old(Snapshot()), IoStep(Ok), Snapshot())
    {
      hide Reachable, Enabled, Apply, CheckNext, CreateNext, DecideNext, UpdateNext, DoneNext;
      IoApplies(Snapshot(), Ok);
      Next(Snapshot(), IoStep(Ok));
      hide IoEnabled;
      if ioPc.CancelInfo? {
        cancelled := cancelled + {ioPc.j};
        ioPc := Reply(ioPc.j, false);
      } else {
        ioReply := ioReply[ioPc.j := ioPc.ok];
        ioPc := IoOver;
      }
    }

    /** One attempt of UpdateStatus: updateStatusIO's, */
    method UpdateRunning(o: Outcome)
      requires Valid() && ioPc.Running? && IoEnabled(Snapshot(), o)
      modifies this
      ensures Valid() && Took(old(Snapshot()), IoStep(o), Snapshot())
    {
      hide Reachable, Enabled, Apply, CheckNext, CreateNext, DecideNext, AnswerNext, DoneNext, ConcludeNext;
      IoApplies(Snapshot(), o);
      Next(Snapshot(), IoStep(o));
      hide IoEnabled;
      var j, attempt := ioPc.j, ioPc.attempt;
      AttemptWrite(j, RUNNING, o);
      hide Attempted;
      if o.Error? && attempt < maxRetries {
        ioPc := Running(j, attempt + 1);
      } else {
        ioPc := IoOver;
      }
    }

    /** and that of the final write. */
    method UpdateFinal(o: Outcome)
      requires Valid() && ioPc.Final? && IoEnabled(Snapshot(), o)
      modifies this
      ensures Valid() && Took(old(Snapshot()), IoStep(o), Snapshot())
    {
      hide Reachable, Enabled, Apply, Attempted;
      ConcludeApplies(Snapshot(), o);
      Next(Snapshot(), IoStep(o));
      hide IoEnabled;
      var j, attempt, status, counted := ioPc.j, ioPc.attempt, ioPc.status, ioPc.counted;
      var again, wrote := o.Error? && attempt < maxRetries, ioPc.wrote || Wrote(o);
      AttemptWrite(j, status, o);
      ghost var u := Snapshot();
      ioPc := if again then Final(j, attempt + 1, status, counted, wrote) else FinalDone(counted);
      unwritten := if again || wrote then old(unwritten) else old(unwritten) + {j};
      assert Snapshot() == u.(ioPc := ioPc, unwritten := unwritten);
    }

    /** The deferred pendingFinalize.Add(-1). */
    method RemovePending()
      requires Valid() && ioPc.FinalDone?
      modifies this
      ensures Valid() && Took(old(Snapshot()), IoStep(Ok), Snapshot())
    {
      hide Reachable, Enabled, Apply, CheckNext, CreateNext, DecideNext, AnswerNext, UpdateNext;
      IoApplies(Snapshot(), Ok);
      Next(Snapshot(), IoStep(Ok));
      hide IoEnabled;
      if ioPc.counted {
        pendingFinalize := pendingFinalize - 1;
      }
      ioPc := IoOver;
    }

    // the execution runner

    /** The check before execution, */
    method CheckBeforeExecution(j: nat)
      requires Valid() && j < |jobs| && jobs[j].stage.Scheduled?
      modifies this
      ensures Valid() && Took(old(Snapshot()), ExecCheck(j), Snapshot())
    {
      hide Reachable, Enabled, Apply;
      ExecApplies(Snapshot(), ExecCheck(j));
      Next(Snapshot(), ExecCheck(j));
      hide ExecEnabled;
      if ContextOver(j) {
        jobs := jobs[j := jobs[j].(stage := Reporting(CANCELED))];
      } else {
        jobs := jobs[j := jobs[j].(stage := Announcing)];
      }
    }

    /** the RUNNING update and the handler, */
    method AnnounceRunning(j: nat)
      requires Valid() && j < |jobs| && jobs[j].stage.Announcing?
      modifies this
      ensures Valid() && Took(old(Snapshot()), ExecAnnounce(j), Snapshot())
    {
      hide Reachable, Enabled, Apply;
      ExecApplies(Snapshot(), ExecAnnounce(j));
      Next(Snapshot(), ExecAnnounce(j));
      hide ExecEnabled;
      io := Post(io, SetRunning(j));
      jobs := jobs[j := jobs[j].(stage := Handling, handlerRuns := jobs[j].handlerRuns + 1)];
    }

    /** its result, */
    method HandlerReturns(j: nat, st: Status)
      requires Valid() && ExecEnabled(Snapshot(), ExecHandle(j, st))
      modifies this
      ensures Valid() && Took(old(Snapshot()), ExecHandle(j, st), Snapshot())
    {
      hide Reachable, Enabled, Apply;
      ExecApplies(Snapshot(), ExecHandle(j, st));
      Next(Snapshot(), ExecHandle(j, st));
      hide ExecEnabled;
      jobs := jobs[j := jobs[j].(stage := Reporting(st))];
    }

    /** and finalizeJob. */
    method PostFinalize(j: nat)
      requires Valid() && j < |jobs| && jobs[j].stage.Reporting?
      modifies this
      ensures Valid() && Took(old(Snapshot()), ExecReport(j), Snapshot())
    {
      hide Reachable, Enabled, Apply;
      ExecApplies(Snapshot(), ExecReport(j));
      Next(Snapshot(), ExecReport(j));
      hide ExecEnabled;
      var st := jobs[j].stage.status;
      control := Post(control, Finalize(j, st));
      jobs := jobs[j := jobs[j].(stage := Finalizing(st))];
    }
  }
}
