/** The JobManager's inductive invariant: which instance holds an ID, where each task
    of it can be, in which order the io runner was given its writes. Every step of
    every goroutine keeps it. */
module JobManagerInvariant {
  import opened Counting
  import opened Runs
  import opened FifoRunner
  import opened JobManagers

  // ----- invariants -----

  predicate Live(st: Stage) { !st.Rejected? && !st.Removed? && !st.Closed? && !st.Unrunnable? }
  predicate Settled(st: Stage) { st.Rejected? || st.Closed? || st.Unrunnable? }
  predicate Started(st: Stage) { !st.Admitted? && !st.Persisting? && !st.Rejected? && !st.Unrunnable? }

  /** The handler has returned, or was skipped by the cancellation check. */
  predicate HandlerOver(st: Stage) { st.Reporting? || st.Finalizing? || st.Removed? || st.Closed? }

  /** activeJobs holds exactly the live instances. */
  ghost predicate ActiveInv(jobs: seq<Job>, active: map<JobID, nat>)
  {
    && (forall id :: id in active ==> active[id] < |jobs| && jobs[active[id]].id == id && Live(jobs[active[id]].stage))
    && (forall j :: 0 <= j < |jobs| && Live(jobs[j].stage) ==> jobs[j].id in active && active[jobs[j].id] == j)
  }

  /** Only the newest instance of an ID is unsettled. */
  ghost predicate NewestInv(jobs: seq<Job>)
  {
    forall j, k :: 0 <= j < k < |jobs| && jobs[j].id == jobs[k].id ==> Settled(jobs[j].stage)
  }

  /** What is reported is terminal. */
  predicate Sound(st: Stage)
  {
    st.Reporting? || st.Finalizing? || st.Removed? || st.Closed? ==> Terminal(st.status)
  }

  /** An instance is scheduled once, when it starts, and its handler runs at most once. */
  ghost predicate JobInv(jobs: seq<Job>)
  {
    forall j :: 0 <= j < |jobs| ==>
      && Sound(jobs[j].stage)
      && jobs[j].schedules == (if Started(jobs[j].stage) then 1 else 0)
      && jobs[j].handlerRuns <= 1
      && (Live(jobs[j].stage) && !jobs[j].stage.Handling? && !jobs[j].stage.Reporting? && !jobs[j].stage.Finalizing?
          ==> jobs[j].handlerRuns == 0)
      && (jobs[j].request.None? ==> Started(jobs[j].stage) || jobs[j].stage.Unrunnable?)
  }

  /** Where the control runner stands, given its current task. */
  ghost predicate ControlInv(s: State)
  {
    && (s.control.current.None? <==> s.controlPc.NoControl?)
    && (s.control.current.Some? ==>
          var t := s.control.current.value;
          match s.controlPc
          case NoControl => true
          case SubmitLoad(q) => t == Submit(q) && q < |s.requests|
          case SubmitHandler(q) => t == Submit(q) && q < |s.requests| && s.requests[q] !in s.activeJobs
          case SubmitStore(q) => t == Submit(q) && q < |s.requests| && s.requests[q] !in s.activeJobs
          case SubmitPost(q, j) =>
            t == Submit(q) && j < |s.jobs| && s.jobs[j].request == Some(q) && s.jobs[j].stage.Admitted?
          case SubmitAwait(q, j) => t == Submit(q) && j < |s.jobs| && s.jobs[j].request == Some(q)
          case CancelLoad(id) => t == Cancel(id)
          case CancelCancel(j) => t.Cancel? && j < |s.jobs|
          case CancelAllStart => t == CancelAll
          case CancelEach(_) => t == CancelAll
          case FinalLoad(j, st) => t == Finalize(j, st) && j < |s.jobs| && s.jobs[j].stage == Finalizing(st)
          case FinalCancel(j, st) => j < |s.jobs| && s.jobs[j].stage == Removed(st)
          case FinalAdd(j, st) => j < |s.jobs| && s.jobs[j].stage == Removed(st)
          case FinalPost(j, st) => j < |s.jobs| && s.jobs[j].stage == Removed(st)
          case ControlOver => true)
    && (forall j :: 0 <= j < |s.jobs| && s.jobs[j].stage.Admitted? ==> s.controlPc.SubmitPost? && s.controlPc.j == j)
    && (forall j :: 0 <= j < |s.jobs| && s.jobs[j].stage.Removed? ==> FinalPc(s.controlPc) && s.controlPc.j == j)
  }

  /** finalizeJobControl waits with the control runner once for each finalizing instance. */
  ghost predicate FinalizeInv(jobs: seq<Job>, waiting: seq<ControlTask>, pc: ControlPc)
  {
    && (forall i :: 0 <= i < |waiting| && waiting[i].Finalize? ==>
          waiting[i].j < |jobs| && jobs[waiting[i].j].stage == Finalizing(waiting[i].status))
    && (forall i, k :: 0 <= i < k < |waiting| && waiting[i].Finalize? && waiting[k].Finalize? ==>
          waiting[i].j != waiting[k].j)
    && (pc.FinalLoad? ==> forall i :: 0 <= i < |waiting| && waiting[i].Finalize? ==> waiting[i].j != pc.j)
    && (forall j :: 0 <= j < |jobs| && jobs[j].stage.Finalizing? ==>
          Finalize(j, jobs[j].stage.status) in waiting || pc == FinalLoad(j, jobs[j].stage.status))
  }

  /** Calls reach the control runner in call order, and each admits at most once. */
  ghost predicate RequestInv(s: State)
  {
    && (s.control.current.Some? && s.control.current.value.Submit? ==> s.control.current.value.q < |s.requests|)
    && (forall i :: 0 <= i < |s.control.waiting| && s.control.waiting[i].Submit? ==>
          && s.control.waiting[i].q < |s.requests|
          && (s.control.current.Some? && s.control.current.value.Submit? ==>
                s.control.current.value.q < s.control.waiting[i].q)
          && (forall j :: 0 <= j < |s.jobs| && s.jobs[j].request.Some? ==>
                s.jobs[j].request.value < s.control.waiting[i].q))
    && (forall i, k ::
          0 <= i < k < |s.control.waiting| && s.control.waiting[i].Submit? && s.control.waiting[k].Submit? ==>
          s.control.waiting[i].q < s.control.waiting[k].q)
    && (forall j, k :: 0 <= j < k < |s.jobs| && s.jobs[j].request.Some? && s.jobs[k].request.Some? ==>
          s.jobs[j].request.value < s.jobs[k].request.value)
    && (forall j :: 0 <= j < |s.jobs| && s.jobs[j].request.Some? ==>
          && s.jobs[j].request.value < |s.requests| && s.jobs[j].id == s.requests[s.jobs[j].request.value]
          && (s.controlPc.SubmitLoad? || s.controlPc.SubmitHandler? || s.controlPc.SubmitStore? ==>
                s.jobs[j].request.value < s.controlPc.q))
  }

  predicate PersistPc(pc: IoPc)
  {
    pc.FirstCheck? || pc.LegacyGet? || pc.Create? || pc.SecondCheck? || pc.Schedule? || pc.Delete?
  }

  predicate ReplyPc(pc: IoPc) { PersistPc(pc) || pc.CancelInfo? || pc.Reply? }

  /** The persist task is with the io runner once for each persisting instance. */
  ghost predicate PersistInv(jobs: seq<Job>, waiting: seq<IoTask>, pc: IoPc)
  {
    && (forall i :: 0 <= i < |waiting| && waiting[i].Persist? ==>
          waiting[i].job < |jobs| && jobs[waiting[i].job].stage.Persisting?)
    && (forall i, k :: 0 <= i < k < |waiting| && waiting[i].Persist? && waiting[k].Persist? ==>
          waiting[i].job != waiting[k].job)
    && (PersistPc(pc) ==> forall i :: 0 <= i < |waiting| && waiting[i].Persist? ==> waiting[i].job != pc.j)
    && (forall j :: 0 <= j < |jobs| && jobs[j].stage.Persisting? ==>
          Persist(j) in waiting || (PersistPc(pc) && pc.j == j))
  }

  /** Where the io runner stands, given its current task. */
  ghost predicate IoInv(jobs: seq<Job>, io: Fifo<IoTask>, pc: IoPc, replies: map<nat, bool>)
  {
    && (io.current.None? <==> pc.NoIo?)
    && (io.current.Some? ==>
          var t := io.current.value;
          && (PersistPc(pc) ==> t == Persist(pc.j) && pc.j < |jobs| && jobs[pc.j].stage.Persisting?)
          && (pc.CancelInfo? ==> t == Persist(pc.j) && pc.j < |jobs| && jobs[pc.j].stage.Rejected?)
          && (pc.Reply? ==> t == Persist(pc.j) && pc.j < |jobs| && jobs[pc.j].request.Some?
                            && (if pc.ok then Started(jobs[pc.j].stage) else jobs[pc.j].stage.Rejected?))
          && (pc.Running? ==> t == SetRunning(pc.j))
          && (pc.Final? ==> t == SetFinal(pc.j, pc.status, pc.counted))
          && (pc.FinalDone? ==> t.SetFinal? && t.counted == pc.counted))
    && PersistInv(jobs, io.waiting, pc)
    && (forall j :: j in replies ==>
          && j < |jobs| && jobs[j].request.Some?
          && (if replies[j] then Started(jobs[j].stage) else jobs[j].stage.Rejected?))
  }

  function Rank(t: IoTask): int { if t.Persist? then 0 else if t.SetRunning? then 1 else 2 }

  /** The highest rank an instance may have with the io runner. */
  function MaxRank(st: Stage): int
  {
    match st
    case Admitted => -1
    case Persisting => 0
    case Rejected => 0
    case Scheduled => 0
    case Announcing => 0
    case Handling => 1
    case Reporting(_) => 1
    case Finalizing(_) => 1
    case Removed(_) => 1
    case Closed(_) => 2
    case Unrunnable => 2
  }

  predicate Before(j: nat, r: int, k: nat, r': int) { j < k || (j == k && r < r') }

  /** The io runner was given the tasks of an ID instance by instance, and those of
      an instance in the order persist, RUNNING, final. */
  ghost predicate LogInv(jobs: seq<Job>, log: seq<IoTask>)
  {
    && (forall i :: 0 <= i < |log| ==>
          && log[i].job < |jobs| && Rank(log[i]) <= MaxRank(jobs[log[i].job].stage)
          && (log[i].SetFinal? ==> Terminal(log[i].status)))
    && (forall i, k :: 0 <= i < k < |log| && jobs[log[i].job].id == jobs[log[k].job].id ==>
          Before(log[i].job, Rank(log[i]), log[k].job, Rank(log[k])))
    && (forall j :: 0 <= j < |jobs| && jobs[j].stage.Closed? ==> SetFinal(j, jobs[j].stage.status, true) in log)
  }

  function StatusOf(t: IoTask): Status
  {
    match t
    case Persist(_) => PENDING
    case SetRunning(_) => RUNNING
    case SetFinal(_, st, _) => st
  }

  /** Writes follow the log, and the store shows the last write of each ID. */
  ghost predicate WriteInv(jobs: seq<Job>, log: seq<IoTask>, begun: nat, writes: seq<Write>, store: map<JobID, Status>)
  {
    && begun <= |log|
    && (forall i :: 0 <= i < |writes| ==>
          && writes[i].pos < begun && writes[i].job < |jobs|
          && log[writes[i].pos].job == writes[i].job && StatusOf(log[writes[i].pos]) == writes[i].status)
    && (forall i, k :: 0 <= i < k < |writes| ==> writes[i].pos <= writes[k].pos)
    && LastShown(jobs, writes, store)
  }

  /** The store shows the last write of each ID. */
  ghost predicate LastShown(jobs: seq<Job>, writes: seq<Write>, store: map<JobID, Status>)
    requires forall i :: 0 <= i < |writes| ==> writes[i].job < |jobs|
  {
    forall i :: 0 <= i < |writes| && NoLaterWrite(jobs, writes, i) ==>
      jobs[writes[i].job].id in store && store[jobs[writes[i].job].id] == writes[i].status
  }

  /** No later write concerns the same ID. */
  ghost predicate NoLaterWrite(jobs: seq<Job>, writes: seq<Write>, i: nat)
    requires forall k :: 0 <= k < |writes| ==> writes[k].job < |jobs|
    requires i < |writes|
  {
    forall k :: i < k < |writes| ==> jobs[writes[k].job].id != jobs[writes[i].job].id
  }

  function Begun(s: State): nat { |s.io.finished| + |AsSeq(s.io.current)| }

  /** The PENDING record of an instance has been written. */
  ghost predicate Recorded(writes: seq<Write>, j: nat)
  {
    exists i :: 0 <= i < |writes| && writes[i].job == j && writes[i].status == PENDING
  }

  ghost predicate RecordInv(s: State)
  {
    && (s.maxRetries < 0 ==> s.writes == [])
    && (s.maxRetries >= 0 ==>
          && (s.ioPc.SecondCheck? || s.ioPc.Schedule? ==> Recorded(s.writes, s.ioPc.j))
          && (forall j :: 0 <= j < |s.jobs| && s.jobs[j].request.Some? && Started(s.jobs[j].stage) ==>
                Recorded(s.writes, j)))
  }

  /** The io step of the instance admitted for call q reported nil. */
  predicate Acknowledged(s: State, q: nat, j: nat)
  {
    j < |s.jobs| && s.jobs[j].request == Some(q) && j in s.ioReply && s.ioReply[j]
  }

  ghost predicate Kept(s: State, q: nat) { exists j :: Acknowledged(s, q, j) }

  ghost predicate ReplyInv(s: State)
  {
    && (forall q :: q in s.controlReply && s.controlReply[q] ==> Kept(s, q))
    && (forall q :: q in s.returned && s.returned[q] ==> Kept(s, q))
    && (s.controlPc.SubmitAwait? ==>
          s.controlPc.j in s.ioReply || Persist(s.controlPc.j) in s.io.waiting
          || (ReplyPc(s.ioPc) && s.ioPc.j == s.controlPc.j))
  }

  function CountedTask(t: IoTask): nat { if t.SetFinal? && t.counted then 1 else 0 }

  /** pendingFinalize counts the final writes between Add(1) and Add(-1). */
  predicate PendingInv(s: State)
  {
    s.pendingFinalize == Sum(s.io.waiting, CountedTask)
                         + (if (s.ioPc.Final? || s.ioPc.FinalDone?) && s.ioPc.counted then 1 else 0)
                         + (if s.controlPc.FinalPost? then 1 else 0)
  }

  ghost predicate Inv(s: State)
  {
    && ActiveInv(s.jobs, s.activeJobs) && NewestInv(s.jobs) && JobInv(s.jobs)
    && ControlInv(s) && FinalizeInv(s.jobs, s.control.waiting, s.controlPc) && RequestInv(s)
    && IoInv(s.jobs, s.io, s.ioPc, s.ioReply)
    && LogInv(s.jobs, s.io.Log())
    && WriteInv(s.jobs, s.io.Log(), Begun(s), s.writes, s.store)
    && RecordInv(s) && ReplyInv(s) && PendingInv(s)
  }

  lemma InitInv(durable: bool, maxRetries: int, store: map<JobID, Status>)
    ensures Inv(Init(durable, maxRetries, store))
  {
    hide ActiveInv, NewestInv, JobInv, ControlInv, FinalizeInv, RequestInv, IoInv, RecordInv, ReplyInv,
         LogInv, WriteInv, PendingInv;
    var s := Init(durable, maxRetries, store);
    InitParts(s);
    InitLog(s);
  }

  lemma InitLog(s: State)
    requires s == Init(s.durable, s.maxRetries, s.store)
    ensures LogInv(s.jobs, s.io.Log()) && WriteInv(s.jobs, s.io.Log(), Begun(s), s.writes, s.store) && PendingInv(s)
  {
    hide LogInv, WriteInv;
    assert Empty<IoTask>().Log() == [];
    NothingLogged(s.jobs, s.io.Log(), s.writes, s.store);
  }

  lemma NothingLogged(jobs: seq<Job>, log: seq<IoTask>, writes: seq<Write>, store: map<JobID, Status>)
    requires |jobs| == 0 && |log| == 0 && |writes| == 0
    ensures LogInv(jobs, log) && WriteInv(jobs, log, 0, writes, store)
  {
  }

  lemma InitParts(s: State)
    requires s == Init(s.durable, s.maxRetries, s.store)
    ensures ActiveInv(s.jobs, s.activeJobs) && NewestInv(s.jobs) && JobInv(s.jobs)
    ensures ControlInv(s) && FinalizeInv(s.jobs, s.control.waiting, s.controlPc) && RequestInv(s)
    ensures IoInv(s.jobs, s.io, s.ioPc, s.ioReply) && RecordInv(s) && ReplyInv(s)
  {
  }

  // ----- every step keeps the invariant -----

  /** An instance moves on; its ID, its call and its place stay. */
  lemma JobMoves(jobs: seq<Job>, j: nat, job: Job)
    requires j < |jobs| && job.id == jobs[j].id && job.request == jobs[j].request
    ensures forall active :: ActiveInv(jobs, active) && Live(jobs[j].stage) == Live(job.stage) ==>
            ActiveInv(jobs[j := job], active)
    ensures forall active :: ActiveInv(jobs, active) && Live(jobs[j].stage) && !Live(job.stage) ==>
              ActiveInv(jobs[j := job], active - {job.id})
    ensures NewestInv(jobs) && (Settled(jobs[j].stage) ==> Settled(job.stage)) ==> NewestInv(jobs[j := job])
    ensures forall log :: LogInv(jobs, log) && MaxRank(jobs[j].stage) <= MaxRank(job.stage) && !job.stage.Closed? ==>
              LogInv(jobs[j := job], log)
  {
  }

  lemma WritesUnmoved(jobs: seq<Job>, j: nat, job: Job, log: seq<IoTask>, begun: nat, writes: seq<Write>,
          store: map<JobID, Status>)
    requires j < |jobs| && job.id == jobs[j].id
    requires WriteInv(jobs, log, begun, writes, store)
    ensures WriteInv(jobs[j := job], log, begun, writes, store)
  {
    var moved := jobs[j := job];
    forall i | 0 <= i < |writes| && NoLaterWrite(moved, writes, i)
      ensures moved[writes[i].job].id in store && store[moved[writes[i].job].id] == writes[i].status
    {
      assert NoLaterWrite(jobs, writes, i);
    }
  }

  /** A new instance enters. */
  lemma WritesUnmovedByEntry(jobs: seq<Job>, job: Job, log: seq<IoTask>, begun: nat, writes: seq<Write>,
          store: map<JobID, Status>)
    requires WriteInv(jobs, log, begun, writes, store)
    ensures WriteInv(jobs + [job], log, begun, writes, store)
  {
    var more := jobs + [job];
    forall i | 0 <= i < |writes| && NoLaterWrite(more, writes, i)
      ensures more[writes[i].job].id in store && store[more[writes[i].job].id] == writes[i].status
    {
      assert NoLaterWrite(jobs, writes, i);
    }
  }

  /** The unsettled instance of an ID posts a task of higher rank than any before. */
  lemma LogPosted(jobs: seq<Job>, j: nat, job: Job, log: seq<IoTask>, t: IoTask)
    requires LogInv(jobs, log) && NewestInv(jobs)
    requires j < |jobs| && !Settled(jobs[j].stage) && MaxRank(jobs[j].stage) < Rank(t) <= MaxRank(job.stage)
    requires t.job == j && job.id == jobs[j].id && (job.stage.Closed? ==> t == SetFinal(j, job.stage.status, true))
    requires t.SetFinal? ==> Terminal(t.status)
    ensures LogInv(jobs[j := job], log + [t])
  {
    var moved, more := jobs[j := job], log + [t];
    assert more[|log|] == t;
    forall i | 0 <= i < |log| && moved[log[i].job].id == job.id ensures Before(log[i].job, Rank(log[i]), j, Rank(t)) {
      assert log[i].job <= j;
    }
    forall k | 0 <= k < |moved| && moved[k].stage.Closed? ensures SetFinal(k, moved[k].stage.status, true) in more {
      if k != j {
        assert SetFinal(k, jobs[k].stage.status, true) in log;
      }
    }
  }

  lemma LogUnmovedByEntry(jobs: seq<Job>, job: Job, log: seq<IoTask>)
    requires LogInv(jobs, log) && !job.stage.Closed?
    ensures LogInv(jobs + [job], log)
  {
  }

  lemma WritesUnmovedByPost(jobs: seq<Job>, log: seq<IoTask>, t: IoTask, begun: nat, writes: seq<Write>,
          store: map<JobID, Status>)
    requires WriteInv(jobs, log, begun, writes, store)
    ensures WriteInv(jobs, log + [t], begun, writes, store)
  {
  }

  /** The task at position pos, the latest begun, writes its own status. */
  lemma WriteLogged(jobs: seq<Job>, log: seq<IoTask>, begun: nat, writes: seq<Write>, store: map<JobID, Status>,
          w: Write)
    requires WriteInv(jobs, log, begun, writes, store)
    requires w.pos + 1 == begun && w.job < |jobs| && log[w.pos].job == w.job && StatusOf(log[w.pos]) == w.status
    ensures WriteInv(jobs, log, begun, writes + [w], store[jobs[w.job].id := w.status])
  {
    hide LastShown;
    assert (writes + [w])[|writes|] == w;
    WriteShown(jobs, writes, store, w);
  }

  lemma WriteShown(jobs: seq<Job>, writes: seq<Write>, store: map<JobID, Status>, w: Write)
    requires forall i :: 0 <= i < |writes| ==> writes[i].job < |jobs|
    requires LastShown(jobs, writes, store) && w.job < |jobs|
    ensures LastShown(jobs, writes + [w], store[jobs[w.job].id := w.status])
  {
    var more, store' := writes + [w], store[jobs[w.job].id := w.status];
    forall i | 0 <= i < |more| && NoLaterWrite(jobs, more, i)
      ensures jobs[more[i].job].id in store' && store'[jobs[more[i].job].id] == more[i].status
    {
      if i < |writes| {
        assert jobs[more[|writes|].job].id != jobs[more[i].job].id;
        StillLast(jobs, writes, w, i);
      }
    }
  }

  lemma StillLast(jobs: seq<Job>, writes: seq<Write>, w: Write, i: nat)
    requires forall k :: 0 <= k < |writes| ==> writes[k].job < |jobs|
    requires i < |writes| && w.job < |jobs| && NoLaterWrite(jobs, writes + [w], i)
    ensures NoLaterWrite(jobs, writes, i)
  {
    forall k | i < k < |writes| ensures jobs[writes[k].job].id != jobs[writes[i].job].id {
      assert (writes + [w])[k] == writes[k];
    }
  }

  lemma WriteAdded(s: State, j: nat, status: Status)
    requires WriteInv(s.jobs, s.io.Log(), Begun(s), s.writes, s.store)
    requires s.io.current.Some? && s.io.current.value.job == j < |s.jobs| && StatusOf(s.io.current.value) == status
    ensures WriteInv(s.jobs, s.io.Log(), Begun(s), s.writes + [Write(|s.io.finished|, j, status)],
                     s.store[s.jobs[j].id := status])
  {
    hide WriteInv;
    assert s.io.Log()[|s.io.finished|] == s.io.current.value;
    WriteLogged(s.jobs, s.io.Log(), Begun(s), s.writes, s.store, Write(|s.io.finished|, j, status));
  }

  lemma JobEnters(jobs: seq<Job>, job: Job, active: map<JobID, nat>)
    requires ActiveInv(jobs, active) && NewestInv(jobs) && Live(job.stage)
    requires job.id !in active && forall j :: 0 <= j < |jobs| && jobs[j].id == job.id ==> !jobs[j].stage.Removed?
    ensures ActiveInv(jobs + [job], active[job.id := |jobs|]) && NewestInv(jobs + [job])
  {
    var more := jobs + [job];
    forall j, k | 0 <= j < k < |more| && more[j].id == more[k].id ensures Settled(more[j].stage) {
      if k == |jobs| {
        assert !Live(jobs[j].stage);
      }
    }
  }

  lemma IoUnmoved(jobs: seq<Job>, j: nat, job: Job, io: Fifo<IoTask>, pc: IoPc, replies: map<nat, bool>)
    requires IoInv(jobs, io, pc, replies) && j < |jobs| && job.request == jobs[j].request
    requires !jobs[j].stage.Persisting? && !jobs[j].stage.Rejected? && !job.stage.Persisting?
    requires Started(jobs[j].stage) ==> Started(job.stage)
    ensures IoInv(jobs[j := job], io, pc, replies)
  {
  }

  lemma IoUnmovedByEntry(jobs: seq<Job>, job: Job, io: Fifo<IoTask>, pc: IoPc, replies: map<nat, bool>)
    requires IoInv(jobs, io, pc, replies) && !job.stage.Persisting?
    ensures IoInv(jobs + [job], io, pc, replies)
  {
  }

  lemma IoUnmovedByPost(jobs: seq<Job>, io: Fifo<IoTask>, pc: IoPc, replies: map<nat, bool>, t: IoTask)
    requires IoInv(jobs, io, pc, replies) && !t.Persist?
    ensures IoInv(jobs, Post(io, t), pc, replies)
  {
  }

  lemma PersistPosted(jobs: seq<Job>, j: nat, job: Job, io: Fifo<IoTask>, pc: IoPc, replies: map<nat, bool>)
    requires IoInv(jobs, io, pc, replies) && j < |jobs| && job.request == jobs[j].request
    requires jobs[j].stage.Admitted? && job.stage.Persisting?
    ensures IoInv(jobs[j := job], Post(io, Persist(j)), pc, replies)
  {
    assert PersistPc(pc) && io.current.Some? ==> pc.j != j;
    PersistJoins(jobs, j, job, io.waiting, pc);
    hide PersistInv;
  }

  lemma PersistJoins(jobs: seq<Job>, j: nat, job: Job, waiting: seq<IoTask>, pc: IoPc)
    requires PersistInv(jobs, waiting, pc) && j < |jobs| && (PersistPc(pc) ==> pc.j != j)
    requires jobs[j].stage.Admitted? && job.stage.Persisting?
    ensures PersistInv(jobs[j := job], waiting + [Persist(j)], pc)
  {
    var moved, posted := jobs[j := job], waiting + [Persist(j)];
    assert posted[|waiting|] == Persist(j);
    forall k | 0 <= k < |moved| && moved[k].stage.Persisting?
      ensures Persist(k) in posted || (PersistPc(pc) && pc.j == k)
    {
      if k != j {
        assert jobs[k].stage.Persisting?;
      }
    }
  }

  lemma PostedPending(waiting: seq<IoTask>, t: IoTask)
    ensures Sum(waiting + [t], CountedTask) == Sum(waiting, CountedTask) + CountedTask(t)
  {
    SumAppend(waiting, t, CountedTask);
  }

  // clients

  lemma ClientStep(s: State, e: Event)
    requires Inv(s) && IsClient(e) && Enabled(s, e)
    ensures Inv(ClientNext(s, e))
  {
    hide ActiveInv, NewestInv, JobInv, LogInv, WriteInv, PendingInv, IoInv, RequestInv, ControlInv,
         FinalizeInv, ReplyInv, RecordInv;
    ClientKeepsRequests(s, e);
    ClientKeepsControl(s, e);
    ClientKeepsPending(s, e);
    ClientKeepsReply(s, e);
  }

  lemma ClientKeepsRequests(s: State, e: Event)
    requires RequestInv(s) && ControlInv(s) && IsClient(e) && Enabled(s, e)
    ensures RequestInv(ClientNext(s, e))
  {
    if e.PostSubmit? {
      PostKeepsRequests(s, e.id);
    } else {
      hide ControlInv;
      OthersKeepRequests(s, e);
    }
  }

  lemma PostKeepsRequests(s: State, id: JobID)
    requires RequestInv(s) && ControlInv(s) && id in s.shut.submitting
    ensures RequestInv(ClientNext(s, PostSubmit(id)))
  {
    hide ControlInv;
  }

  lemma OthersKeepRequests(s: State, e: Event)
    requires RequestInv(s) && IsClient(e) && !e.PostSubmit? && Enabled(s, e)
    ensures RequestInv(ClientNext(s, e))
  {
    var t := ClientNext(s, e);
    assert t.(shut := s.shut, control := s.control, contextDone := s.contextDone, returned := s.returned) == s;
    assert t.control == if e.CancelCall? then Post(s.control, Cancel(e.id)) else s.control;
    hide ClientNext, Enabled;
  }

  lemma ClientKeepsControl(s: State, e: Event)
    requires ControlInv(s) && FinalizeInv(s.jobs, s.control.waiting, s.controlPc) && IsClient(e) && Enabled(s, e)
    ensures var t := ClientNext(s, e); ControlInv(t) && FinalizeInv(t.jobs, t.control.waiting, t.controlPc)
  {
    hide ControlInv, FinalizeInv;
    ClientKeepsPc(s, e);
    if e.PostSubmit? {
      FinalizesStay(s.jobs, s.control.waiting, s.controlPc, Submit(|s.requests|));
    } else if e.CancelCall? {
      FinalizesStay(s.jobs, s.control.waiting, s.controlPc, Cancel(e.id));
    }
  }

  lemma ClientKeepsPc(s: State, e: Event)
    requires ControlInv(s) && IsClient(e) && Enabled(s, e)
    ensures ControlInv(ClientNext(s, e))
  {
    var t := ClientNext(s, e);
    assert t.control.current == s.control.current && t.controlPc == s.controlPc && s.requests <= t.requests;
    assert t.jobs == s.jobs && t.activeJobs == s.activeJobs;
    hide ClientNext, Enabled;
  }

  lemma FinalizesStay(jobs: seq<Job>, waiting: seq<ControlTask>, pc: ControlPc, t: ControlTask)
    requires FinalizeInv(jobs, waiting, pc) && !t.Finalize?
    ensures FinalizeInv(jobs, waiting + [t], pc)
  {
  }

  lemma ClientKeepsPending(s: State, e: Event)
    requires PendingInv(s) && RecordInv(s) && IsClient(e) && Enabled(s, e)
    ensures PendingInv(ClientNext(s, e)) && RecordInv(ClientNext(s, e))
  {
  }

  lemma ClientKeepsReply(s: State, e: Event)
    requires ReplyInv(s) && IsClient(e) && Enabled(s, e)
    ensures ReplyInv(ClientNext(s, e))
  {
    AcknowledgedKept(s, ClientNext(s, e));
  }

  /** Acknowledgements are never taken back. */
  lemma AcknowledgedKept(s: State, t: State)
    requires |s.jobs| <= |t.jobs| && forall j :: 0 <= j < |s.jobs| ==> t.jobs[j].request == s.jobs[j].request
    requires forall j :: j in s.ioReply ==> j in t.ioReply && t.ioReply[j] == s.ioReply[j]
    ensures forall q :: Kept(s, q) ==> Kept(t, q)
  {
    forall q | Kept(s, q) ensures Kept(t, q) {
      var j :| Acknowledged(s, q, j);
      assert Acknowledged(t, q, j);
    }
  }

  // the Shutdown thread

  lemma ShutdownStep(s: State, e: Event)
    requires Inv(s) && IsShutdown(e) && Enabled(s, e)
    ensures Inv(ShutdownNext(s, e))
  {
    hide ActiveInv, NewestInv, JobInv, LogInv, WriteInv, PendingInv, IoInv, RequestInv, ControlInv, FinalizeInv,
         ReplyInv, RecordInv, ShutdownNext;
    ShutdownFrame(s, e);
    ShutdownKeeps(s, ShutdownNext(s, e));
    if e.PostCancelAll? {
      FinalizesStay(s.jobs, s.control.waiting, s.controlPc, CancelAll);
    }
  }

  lemma ShutdownFrame(s: State, e: Event)
    requires IsShutdown(e) && Enabled(s, e)
    ensures var t := ShutdownNext(s, e);
            && t.(shut := s.shut, control := s.control) == s
            && t.control == (if e.PostCancelAll? then Post(s.control, CancelAll) else s.control)
  {
  }

  lemma ShutdownKeeps(s: State, t: State)
    requires t.(shut := s.shut, control := s.control) == s
    requires t.control == s.control || t.control == Post(s.control, CancelAll)
    requires ControlInv(s) && RequestInv(s) && ReplyInv(s) && RecordInv(s) && PendingInv(s)
    ensures ControlInv(t) && RequestInv(t) && ReplyInv(t) && RecordInv(t) && PendingInv(t)
  {
    assert RecordInv(t) && PendingInv(t);
    hide ControlInv, RequestInv, ReplyInv, RecordInv, PendingInv;
    ShutdownKeepsControl(s, t);
    ShutdownKeepsReplies(s, t);
  }

  lemma ShutdownKeepsControl(s: State, t: State)
    requires t.(shut := s.shut, control := s.control) == s
    requires t.control == s.control || t.control == Post(s.control, CancelAll)
    requires ControlInv(s) && RequestInv(s)
    ensures ControlInv(t) && RequestInv(t)
  {
    assert ControlInv(t) by { hide RequestInv; }
    hide ControlInv;
  }

  lemma ShutdownKeepsReplies(s: State, t: State)
    requires t.(shut := s.shut, control := s.control) == s && ReplyInv(s)
    ensures ReplyInv(t)
  {
    AcknowledgedKept(s, t);
  }

  /** A step that leaves the control side alone. */
  lemma SameControl(s: State, t: State)
    requires t.control == s.control && t.controlPc == s.controlPc && t.requests == s.requests
    requires t.jobs == s.jobs && t.activeJobs == s.activeJobs
    requires ControlInv(s) && RequestInv(s)
    ensures ControlInv(t) && RequestInv(t)
  {
  }

  // the runners begin and end tasks

  lemma RunnerStep(s: State, e: Event)
    requires Inv(s) && IsRunner(e) && Enabled(s, e)
    ensures Inv(RunnerNext(s, e))
  {
    hide ActiveInv, NewestInv, JobInv, LogInv, WriteInv, PendingInv, IoInv, ControlInv, RequestInv,
         FinalizeInv, RecordInv, ReplyInv;
    if e.ControlBegin? || e.ControlEnd? {
      ControlTurn(s, e);
      ControlTurnRest(s, e);
    } else {
      IoTurn(s, e);
      IoTurnRest(s, e);
    }
  }

  lemma ControlTurn(s: State, e: Event)
    requires (e.ControlBegin? || e.ControlEnd?) && Enabled(s, e)
    requires ControlInv(s) && FinalizeInv(s.jobs, s.control.waiting, s.controlPc) && RequestInv(s)
    ensures var t := RunnerNext(s, e);
            ControlInv(t) && FinalizeInv(t.jobs, t.control.waiting, t.controlPc) && RequestInv(t)
  {
    hide ControlInv, FinalizeInv, RequestInv;
    ControlTurnFinalize(s, e);
    ControlTurnPc(s, e);
    ControlTurnRequests(s, e);
  }

  lemma ControlTurnPc(s: State, e: Event)
    requires (e.ControlBegin? || e.ControlEnd?) && Enabled(s, e) && RequestInv(s)
    requires ControlInv(s) && FinalizeInv(s.jobs, s.control.waiting, s.controlPc)
    ensures ControlInv(RunnerNext(s, e))
  {
    hide RequestInv, FinalizeInv;
    if e.ControlBegin? {
      FrontIsKnown(s);
      ControlBegins(s);
    } else {
      ControlEnds(s);
    }
  }

  /** What the next control task speaks of exists. */
  predicate KnownTask(s: State, t: ControlTask)
  {
    match t
    case Submit(q) => q < |s.requests|
    case Cancel(_) => true
    case CancelAll => true
    case Finalize(j, st) => j < |s.jobs| && s.jobs[j].stage == Finalizing(st)
  }

  lemma FrontIsKnown(s: State)
    requires CanBegin(s.control) && RequestInv(s) && FinalizeInv(s.jobs, s.control.waiting, s.controlPc)
    ensures KnownTask(s, s.control.waiting[0])
  {
  }

  lemma ControlBegins(s: State)
    requires s.controlPc.NoControl? && CanBegin(s.control) && ControlInv(s) && KnownTask(s, s.control.waiting[0])
    ensures ControlInv(RunnerNext(s, ControlBegin))
  {
  }

  lemma ControlEnds(s: State)
    requires s.controlPc.ControlOver? && s.control.current.Some? && ControlInv(s)
    ensures ControlInv(RunnerNext(s, ControlEnd))
  {
  }

  lemma ControlTurnRequests(s: State, e: Event)
    requires (e.ControlBegin? || e.ControlEnd?) && Enabled(s, e) && RequestInv(s)
    ensures RequestInv(RunnerNext(s, e))
  {
  }

  lemma ControlTurnFinalize(s: State, e: Event)
    requires (e.ControlBegin? || e.ControlEnd?) && Enabled(s, e)
    requires FinalizeInv(s.jobs, s.control.waiting, s.controlPc)
    ensures var t := RunnerNext(s, e); FinalizeInv(t.jobs, t.control.waiting, t.controlPc)
  {
    hide FinalizeInv;
    if e.ControlBegin? {
      FinalizeBegins(s.jobs, s.control.waiting);
    } else {
      FinalizeEnds(s.jobs, s.control.waiting);
    }
  }

  lemma FinalizeBegins(jobs: seq<Job>, waiting: seq<ControlTask>)
    requires FinalizeInv(jobs, waiting, NoControl) && waiting != []
    ensures FinalizeInv(jobs, waiting[1..], ControlStart(waiting[0]))
  {
    forall j | 0 <= j < |jobs| && jobs[j].stage.Finalizing?
      ensures Finalize(j, jobs[j].stage.status) in waiting[1..]
              || ControlStart(waiting[0]) == FinalLoad(j, jobs[j].stage.status)
    {
      assert waiting == [waiting[0]] + waiting[1..];
    }
  }

  lemma FinalizeEnds(jobs: seq<Job>, waiting: seq<ControlTask>)
    requires FinalizeInv(jobs, waiting, ControlOver)
    ensures FinalizeInv(jobs, waiting, NoControl)
  {
  }

  lemma ControlTurnRest(s: State, e: Event)
    requires (e.ControlBegin? || e.ControlEnd?) && Enabled(s, e) && ControlInv(s)
    requires RecordInv(s) && ReplyInv(s) && PendingInv(s)
    ensures var t := RunnerNext(s, e); RecordInv(t) && ReplyInv(t) && PendingInv(t)
  {
    AcknowledgedKept(s, RunnerNext(s, e));
  }

  lemma IoTurn(s: State, e: Event)
    requires (e.IoBegin? || e.IoEnd?) && Enabled(s, e)
    requires IoInv(s.jobs, s.io, s.ioPc, s.ioReply) && LogInv(s.jobs, s.io.Log())
    requires WriteInv(s.jobs, s.io.Log(), Begun(s), s.writes, s.store)
    ensures var t := RunnerNext(s, e);
            && IoInv(t.jobs, t.io, t.ioPc, t.ioReply) && LogInv(t.jobs, t.io.Log())
            && WriteInv(t.jobs, t.io.Log(), Begun(t), t.writes, t.store)
  {
    hide IoInv, LogInv, WriteInv;
    LogOnlyGrows(s.io);
    IoTurnPc(s, e);
    IoTurnWrites(s, e);
  }

  lemma IoTurnWrites(s: State, e: Event)
    requires (e.IoBegin? || e.IoEnd?) && Enabled(s, e)
    requires WriteInv(s.jobs, s.io.Log(), Begun(s), s.writes, s.store)
    ensures var t := RunnerNext(s, e); WriteInv(t.jobs, t.io.Log(), Begun(t), t.writes, t.store)
  {
    var t := RunnerNext(s, e);
    LogOnlyGrows(s.io);
    assert t.io.Log() == s.io.Log() && Begun(s) <= Begun(t);
    hide LastShown;
  }

  lemma IoTurnPc(s: State, e: Event)
    requires (e.IoBegin? || e.IoEnd?) && Enabled(s, e) && IoInv(s.jobs, s.io, s.ioPc, s.ioReply)
    ensures var t := RunnerNext(s, e); IoInv(t.jobs, t.io, t.ioPc, t.ioReply)
  {
    hide IoInv;
    if e.IoBegin? {
      IoBegins(s.jobs, s.io, s.ioPc, s.ioReply);
    } else {
      IoEnds(s.jobs, s.io, s.ioPc, s.ioReply);
    }
  }

  lemma IoBegins(jobs: seq<Job>, io: Fifo<IoTask>, pc: IoPc, replies: map<nat, bool>)
    requires IoInv(jobs, io, pc, replies) && pc.NoIo? && CanBegin(io)
    ensures IoInv(jobs, Begin(io), IoStart(io.waiting[0]), replies)
  {
    assert io.waiting == [io.waiting[0]] + io.waiting[1..];
  }

  lemma IoEnds(jobs: seq<Job>, io: Fifo<IoTask>, pc: IoPc, replies: map<nat, bool>)
    requires IoInv(jobs, io, pc, replies) && pc.IoOver? && io.current.Some?
    ensures IoInv(jobs, End(io), NoIo, replies)
  {
  }

  lemma IoTurnRest(s: State, e: Event)
    requires (e.IoBegin? || e.IoEnd?) && Enabled(s, e) && ControlInv(s) && RequestInv(s)
    requires RecordInv(s) && ReplyInv(s) && PendingInv(s) && IoInv(s.jobs, s.io, s.ioPc, s.ioReply)
    ensures var t := RunnerNext(s, e); RecordInv(t) && ReplyInv(t) && PendingInv(t) && ControlInv(t) && RequestInv(t)
  {
    hide ReplyInv, IoInv, PendingInv, ControlInv, RequestInv, RecordInv;
    IoTurnReplies(s, e);
    IoTurnControl(s, e);
    IoTurnPending(s, e);
  }

  lemma IoTurnReplies(s: State, e: Event)
    requires (e.IoBegin? || e.IoEnd?) && Enabled(s, e) && ReplyInv(s)
    ensures ReplyInv(RunnerNext(s, e))
  {
    AcknowledgedKept(s, RunnerNext(s, e));
    if e.IoBegin? {
      assert s.io.waiting == [s.io.waiting[0]] + s.io.waiting[1..];
    }
  }

  lemma IoTurnPending(s: State, e: Event)
    requires (e.IoBegin? || e.IoEnd?) && Enabled(s, e) && PendingInv(s)
    ensures PendingInv(RunnerNext(s, e))
  {
  }

  lemma IoTurnControl(s: State, e: Event)
    requires (e.IoBegin? || e.IoEnd?) && Enabled(s, e) && ControlInv(s) && RequestInv(s) && RecordInv(s)
    ensures var t := RunnerNext(s, e); RecordInv(t) && ControlInv(t) && RequestInv(t)
  {
    var t := RunnerNext(s, e);
    assert RecordInv(t) by { hide ControlInv, RequestInv; }
    hide RecordInv;
    assert t.(io := s.io, ioPc := s.ioPc) == s;
    hide RunnerNext;
    SameControl(s, t);
  }

  // submitJobControl

  predicate LookStep(s: State, choice: bool)
  {
    Submitting(s.controlPc) && !s.controlPc.SubmitStore? && !s.controlPc.SubmitPost? && ControlEnabled(s, choice)
  }

  /** What a check or an answer does. */
  predicate Looked(s: State, t: State)
    requires Submitting(s.controlPc)
  {
    var q := s.controlPc.q;
    && t.(controlPc := s.controlPc, controlReply := s.controlReply) == s
    && (|| t.controlPc.ControlOver?
        || (s.controlPc.SubmitLoad? && q < |s.requests| && s.requests[q] !in s.activeJobs
              && t.controlPc == SubmitHandler(q))
        || (s.controlPc.SubmitHandler? && t.controlPc == SubmitStore(q)))
    && (|| t.controlReply == s.controlReply || t.controlReply == s.controlReply[q := false]
        || (s.controlPc.SubmitAwait? && s.controlPc.j in s.ioReply
            && t.controlReply == s.controlReply[q := s.ioReply[s.controlPc.j]]))
  }

  lemma LookFrame(s: State, choice: bool)
    requires LookStep(s, choice)
    ensures Looked(s, LookNext(s, choice))
  {
    if s.controlPc.SubmitAwait? {
      assert !choice ==> LookNext(s, choice).controlReply == s.controlReply[s.controlPc.q := false];
    }
  }

  lemma LookKeepsInv(s: State, choice: bool)
    requires Inv(s) && LookStep(s, choice)
    ensures Inv(LookNext(s, choice))
  {
    hide ActiveInv, NewestInv, JobInv, LogInv, WriteInv, PendingInv, IoInv, RequestInv, ControlInv,
         FinalizeInv, ReplyInv, RecordInv, LookNext;
    LookFrame(s, choice);
    LookedControl(s, LookNext(s, choice));
    LookedRequests(s, LookNext(s, choice));
    LookedReplies(s, LookNext(s, choice));
  }

  lemma LookedControl(s: State, t: State)
    requires Submitting(s.controlPc) && Looked(s, t)
    requires ControlInv(s) && FinalizeInv(s.jobs, s.control.waiting, s.controlPc)
    requires !s.controlPc.SubmitStore? && !s.controlPc.SubmitPost?
    ensures ControlInv(t) && FinalizeInv(t.jobs, t.control.waiting, t.controlPc)
  {
    assert ControlInv(t) by { hide FinalizeInv; }
  }

  lemma LookedRequests(s: State, t: State)
    requires Submitting(s.controlPc) && Looked(s, t) && RequestInv(s) && ControlInv(s)
    requires !s.controlPc.SubmitStore? && !s.controlPc.SubmitPost?
    ensures RequestInv(t)
  {
  }

  lemma LookedReplies(s: State, t: State)
    requires Submitting(s.controlPc) && Looked(s, t) && ReplyInv(s) && RecordInv(s) && PendingInv(s) && ControlInv(s)
    ensures ReplyInv(t) && RecordInv(t) && PendingInv(t)
  {
    AcknowledgedKept(s, t);
    if s.controlPc.SubmitAwait? && s.controlPc.j in s.ioReply && s.ioReply[s.controlPc.j] {
      assert Acknowledged(t, s.controlPc.q, s.controlPc.j);
    }
  }

  lemma AdmitKeepsInv(s: State)
    requires Inv(s) && s.controlPc.SubmitStore? && s.controlPc.q < |s.requests|
    ensures Inv(AdmitNext(s))
  {
    hide ActiveInv, NewestInv, JobInv, LogInv, WriteInv, PendingInv, IoInv, RequestInv, ControlInv,
         FinalizeInv, ReplyInv, RecordInv;
    var t := AdmitNext(s);
    assert t.jobs == s.jobs + [t.jobs[|s.jobs|]];
    AdmitControl(s);
    AdmitRequests(s);
    AdmitRest(s);
    JobEnters(s.jobs, t.jobs[|s.jobs|], s.activeJobs);
    IoUnmovedByEntry(s.jobs, t.jobs[|s.jobs|], s.io, s.ioPc, s.ioReply);
    LogUnmovedByEntry(s.jobs, t.jobs[|s.jobs|], s.io.Log());
    WritesUnmovedByEntry(s.jobs, t.jobs[|s.jobs|], s.io.Log(), Begun(s), s.writes, s.store);
  }

  lemma AdmitControl(s: State)
    requires s.controlPc.SubmitStore? && s.controlPc.q < |s.requests|
    requires ControlInv(s) && FinalizeInv(s.jobs, s.control.waiting, s.controlPc)
    ensures var t := AdmitNext(s); ControlInv(t) && FinalizeInv(t.jobs, t.control.waiting, t.controlPc)
    ensures s.requests[s.controlPc.q] !in s.activeJobs && forall j :: 0 <= j < |s.jobs| ==> !s.jobs[j].stage.Removed?
  {
  }

  lemma AdmitRequests(s: State)
    requires s.controlPc.SubmitStore? && s.controlPc.q < |s.requests| && RequestInv(s) && ControlInv(s)
    ensures RequestInv(AdmitNext(s))
  {
  }

  lemma AdmitRest(s: State)
    requires s.controlPc.SubmitStore? && s.controlPc.q < |s.requests|
    requires JobInv(s.jobs) && ReplyInv(s) && RecordInv(s) && PendingInv(s)
    ensures var t := AdmitNext(s); JobInv(t.jobs) && ReplyInv(t) && RecordInv(t) && PendingInv(t)
  {
    AcknowledgedKept(s, AdmitNext(s));
  }

  lemma HandOverKeepsInv(s: State)
    requires Inv(s) && s.controlPc.SubmitPost? && s.controlPc.j < |s.jobs|
    ensures Inv(HandOverNext(s))
  {
    hide ActiveInv, NewestInv, JobInv, LogInv, WriteInv, PendingInv, IoInv, RequestInv, ControlInv,
         FinalizeInv, ReplyInv, RecordInv;
    var t, j := HandOverNext(s), s.controlPc.j;
    AtSubmitPost(s);
    JobMoves(s.jobs, j, t.jobs[j]);
    PersistPosted(s.jobs, j, t.jobs[j], s.io, s.ioPc, s.ioReply);
    HandOverControl(s);
    HandOverRest(s);
    HandOverReplies(s);
    LogOnlyGrows(s.io);
    LogPosted(s.jobs, j, t.jobs[j], s.io.Log(), Persist(j));
    WritesUnmoved(s.jobs, j, t.jobs[j], s.io.Log(), Begun(s), s.writes, s.store);
    WritesUnmovedByPost(t.jobs, s.io.Log(), Persist(j), Begun(s), s.writes, s.store);
  }

  lemma AtSubmitPost(s: State)
    requires ControlInv(s) && s.controlPc.SubmitPost?
    ensures s.controlPc.j < |s.jobs| && s.jobs[s.controlPc.j].stage.Admitted?
  {
  }

  lemma HandOverControl(s: State)
    requires s.controlPc.SubmitPost? && s.controlPc.j < |s.jobs|
    requires ControlInv(s) && FinalizeInv(s.jobs, s.control.waiting, s.controlPc) && RequestInv(s)
    ensures var t := HandOverNext(s);
            ControlInv(t) && FinalizeInv(t.jobs, t.control.waiting, t.controlPc) && RequestInv(t)
  {
    var t := HandOverNext(s);
    assert ControlInv(t) by { hide FinalizeInv, RequestInv; }
    assert FinalizeInv(t.jobs, t.control.waiting, t.controlPc) by { hide RequestInv; }
    assert RequestInv(t) by { hide FinalizeInv; }
  }

  lemma HandOverRest(s: State)
    requires s.controlPc.SubmitPost? && s.controlPc.j < |s.jobs| && s.jobs[s.controlPc.j].stage.Admitted?
    requires JobInv(s.jobs) && RecordInv(s) && PendingInv(s)
    ensures var t := HandOverNext(s); JobInv(t.jobs) && RecordInv(t) && PendingInv(t)
  {
    PostedPending(s.io.waiting, Persist(s.controlPc.j));
  }

  lemma HandOverReplies(s: State)
    requires s.controlPc.SubmitPost? && s.controlPc.j < |s.jobs| && ReplyInv(s)
    ensures ReplyInv(HandOverNext(s))
  {
    var t := HandOverNext(s);
    AcknowledgedKept(s, t);
    assert t.io.waiting[|s.io.waiting|] == Persist(s.controlPc.j);
  }

  lemma SubmitKeepsInv(s: State, choice: bool)
    requires Inv(s) && Submitting(s.controlPc) && ControlEnabled(s, choice)
    ensures Inv(SubmitNext(s, choice))
  {
    hide Inv, LookNext, AdmitNext, HandOverNext;
    if s.controlPc.SubmitStore? { AdmitKeepsInv(s); }
    else if s.controlPc.SubmitPost? { HandOverKeepsInv(s); }
    else { LookKeepsInv(s, choice); }
  }

  // cancelJobControl

  /** What a step of the cancelling tasks may change. */
  predicate Cancelled(s: State, t: State)
  {
    && t.(controlPc := s.controlPc, cancelled := s.cancelled, shut := s.shut) == s
    && (|| t.controlPc.ControlOver?
        || (s.controlPc.CancelLoad? && s.controlPc.id in s.activeJobs
              && t.controlPc == CancelCancel(s.activeJobs[s.controlPc.id]))
        || ((s.controlPc.CancelAllStart? || s.controlPc.CancelEach?) && t.controlPc.CancelEach?))
  }

  lemma CancelFrame(s: State)
    requires Cancelling(s.controlPc)
    ensures Cancelled(s, CancelNext(s))
  {
  }

  lemma CancelKeepsInv(s: State, t: State)
    requires Inv(s) && Cancelling(s.controlPc) && Cancelled(s, t)
    ensures Inv(t)
  {
    hide ActiveInv, NewestInv, JobInv, LogInv, WriteInv, PendingInv, IoInv, RequestInv, ControlInv, FinalizeInv,
         ReplyInv, RecordInv;
    CancelControl(s, t);
    CancelReplies(s, t);
  }

  lemma CancelControl(s: State, t: State)
    requires Cancelling(s.controlPc) && Cancelled(s, t)
    requires ControlInv(s) && RequestInv(s) && FinalizeInv(s.jobs, s.control.waiting, s.controlPc)
    requires ActiveInv(s.jobs, s.activeJobs)
    ensures ControlInv(t) && RequestInv(t) && FinalizeInv(t.jobs, t.control.waiting, t.controlPc)
  {
    assert t.controlPc.CancelCancel? ==> t.controlPc.j < |t.jobs|;
    hide ActiveInv, ControlInv, RequestInv, FinalizeInv;
    CancelPc(s, t);
    CancelRequests(s, t);
  }

  lemma CancelPc(s: State, t: State)
    requires Cancelling(s.controlPc) && Cancelled(s, t) && (t.controlPc.CancelCancel? ==> t.controlPc.j < |t.jobs|)
    requires ControlInv(s)
    ensures ControlInv(t)
  {
  }

  lemma CancelRequests(s: State, t: State)
    requires Cancelling(s.controlPc) && Cancelled(s, t)
    requires RequestInv(s) && FinalizeInv(s.jobs, s.control.waiting, s.controlPc)
    ensures RequestInv(t) && FinalizeInv(t.jobs, t.control.waiting, t.controlPc)
  {
    assert RequestInv(t) by { hide FinalizeInv; }
    hide RequestInv;
  }

  lemma CancelReplies(s: State, t: State)
    requires Cancelling(s.controlPc) && Cancelled(s, t)
    requires ReplyInv(s) && RecordInv(s) && PendingInv(s)
    ensures ReplyInv(t) && RecordInv(t) && PendingInv(t)
  {
    AcknowledgedKept(s, t);
  }

  // finalizeJobControl

  /** The instance that finalizeJobControl takes out is the one that asked for it. */
  lemma FinalizesItself(s: State)
    requires ControlInv(s) && ActiveInv(s.jobs, s.activeJobs) && s.controlPc.FinalLoad?
    ensures var j := s.controlPc.j;
            && j < |s.jobs| && s.jobs[j].stage == Finalizing(s.controlPc.status)
            && s.jobs[j].id in s.activeJobs && s.activeJobs[s.jobs[j].id] == j
  {
  }

  predicate AboutToRemove(s: State)
  {
    && s.controlPc.FinalLoad? && s.controlPc.j < |s.jobs|
    && s.jobs[s.controlPc.j].stage == Finalizing(s.controlPc.status)
    && s.jobs[s.controlPc.j].id in s.activeJobs && s.activeJobs[s.jobs[s.controlPc.j].id] == s.controlPc.j
  }

  lemma RemoveKeepsInv(s: State)
    requires Inv(s) && s.controlPc.FinalLoad? && ControlEnabled(s, true)
    ensures Inv(RemoveNext(s))
  {
    hide ActiveInv, NewestInv, JobInv, LogInv, WriteInv, PendingInv, IoInv, RequestInv, ControlInv,
         FinalizeInv, ReplyInv, RecordInv;
    FinalizesItself(s);
    var t, j := RemoveNext(s), s.controlPc.j;
    assert t.jobs == s.jobs[j := t.jobs[j]];
    JobMoves(s.jobs, j, t.jobs[j]);
    IoUnmoved(s.jobs, j, t.jobs[j], s.io, s.ioPc, s.ioReply);
    WritesUnmoved(s.jobs, j, t.jobs[j], s.io.Log(), Begun(s), s.writes, s.store);
    RemoveControl(s);
    RemoveRest(s);
  }

  lemma RemoveControl(s: State)
    requires AboutToRemove(s)
    requires ControlInv(s) && FinalizeInv(s.jobs, s.control.waiting, s.controlPc) && RequestInv(s)
    ensures var t := RemoveNext(s);
            ControlInv(t) && FinalizeInv(t.jobs, t.control.waiting, t.controlPc) && RequestInv(t)
  {
    var t := RemoveNext(s);
    assert ControlInv(t) by { hide FinalizeInv, RequestInv; }
    assert FinalizeInv(t.jobs, t.control.waiting, t.controlPc) by { hide RequestInv, ControlInv; }
    assert RequestInv(t) by { hide FinalizeInv, ControlInv; }
  }

  lemma RemoveRest(s: State)
    requires AboutToRemove(s) && JobInv(s.jobs) && ReplyInv(s) && RecordInv(s) && PendingInv(s)
    ensures var t := RemoveNext(s); JobInv(t.jobs) && ReplyInv(t) && RecordInv(t) && PendingInv(t)
  {
    AcknowledgedKept(s, RemoveNext(s));
  }

  lemma MarkKeepsInv(s: State)
    requires Inv(s) && (s.controlPc.FinalCancel? || s.controlPc.FinalAdd?)
    ensures Inv(MarkNext(s))
  {
    hide ActiveInv, NewestInv, JobInv, LogInv, WriteInv, PendingInv, IoInv, RequestInv, ControlInv,
         FinalizeInv, ReplyInv, RecordInv;
    MarkControl(s);
    MarkRest(s);
  }

  lemma MarkControl(s: State)
    requires s.controlPc.FinalCancel? || s.controlPc.FinalAdd?
    requires ControlInv(s) && FinalizeInv(s.jobs, s.control.waiting, s.controlPc) && RequestInv(s)
    ensures var t := MarkNext(s);
            ControlInv(t) && FinalizeInv(t.jobs, t.control.waiting, t.controlPc) && RequestInv(t)
  {
    var t := MarkNext(s);
    assert ControlInv(t) by { hide FinalizeInv, RequestInv; }
    assert FinalizeInv(t.jobs, t.control.waiting, t.controlPc) by { hide RequestInv, ControlInv; }
    assert RequestInv(t) by { hide FinalizeInv, ControlInv; }
  }

  lemma MarkRest(s: State)
    requires (s.controlPc.FinalCancel? || s.controlPc.FinalAdd?) && ReplyInv(s) && RecordInv(s) && PendingInv(s)
    ensures var t := MarkNext(s); ReplyInv(t) && RecordInv(t) && PendingInv(t)
  {
    AcknowledgedKept(s, MarkNext(s));
  }

  lemma AtFinal(s: State)
    requires ControlInv(s) && FinalPc(s.controlPc)
    ensures s.controlPc.j < |s.jobs| && s.jobs[s.controlPc.j].stage == Removed(s.controlPc.status)
  {
  }

  lemma FinalPostKeepsInv(s: State)
    requires Inv(s) && s.controlPc.FinalPost? && s.controlPc.j < |s.jobs|
    ensures Inv(FinalPostNext(s))
  {
    hide ActiveInv, NewestInv, JobInv, LogInv, WriteInv, PendingInv, IoInv, RequestInv, ControlInv,
         FinalizeInv, ReplyInv, RecordInv;
    AtFinal(s);
    FinalIsTerminal(s);
    var t, j := FinalPostNext(s), s.controlPc.j;
    var task := SetFinal(j, s.controlPc.status, true);
    JobMoves(s.jobs, j, t.jobs[j]);
    IoUnmoved(s.jobs, j, t.jobs[j], s.io, s.ioPc, s.ioReply);
    IoUnmovedByPost(t.jobs, s.io, s.ioPc, s.ioReply, task);
    LogOnlyGrows(s.io);
    LogPosted(s.jobs, j, t.jobs[j], s.io.Log(), task);
    WritesUnmoved(s.jobs, j, t.jobs[j], s.io.Log(), Begun(s), s.writes, s.store);
    WritesUnmovedByPost(t.jobs, s.io.Log(), task, Begun(s), s.writes, s.store);
    FinalPostControl(s);
    FinalPostRest(s);
  }

  lemma FinalIsTerminal(s: State)
    requires JobInv(s.jobs) && s.controlPc.FinalPost?
    requires s.controlPc.j < |s.jobs| && s.jobs[s.controlPc.j].stage == Removed(s.controlPc.status)
    ensures Terminal(s.controlPc.status)
  {
    assert Sound(s.jobs[s.controlPc.j].stage);
  }

  lemma FinalPostControl(s: State)
    requires s.controlPc.FinalPost? && s.controlPc.j < |s.jobs|
    requires ControlInv(s) && FinalizeInv(s.jobs, s.control.waiting, s.controlPc) && RequestInv(s)
    ensures var t := FinalPostNext(s);
            ControlInv(t) && FinalizeInv(t.jobs, t.control.waiting, t.controlPc) && RequestInv(t)
  {
    var t := FinalPostNext(s);
    assert ControlInv(t) by { hide FinalizeInv, RequestInv; }
    assert FinalizeInv(t.jobs, t.control.waiting, t.controlPc) by { hide RequestInv; }
    assert RequestInv(t) by { hide FinalizeInv, ControlInv; }
  }

  lemma FinalPostRest(s: State)
    requires s.controlPc.FinalPost? && s.controlPc.j < |s.jobs|
    requires s.jobs[s.controlPc.j].stage == Removed(s.controlPc.status)
    requires JobInv(s.jobs) && ReplyInv(s) && RecordInv(s) && PendingInv(s)
    ensures var t := FinalPostNext(s); JobInv(t.jobs) && ReplyInv(t) && RecordInv(t) && PendingInv(t)
  {
    PostedPending(s.io.waiting, SetFinal(s.controlPc.j, s.controlPc.status, true));
    AcknowledgedKept(s, FinalPostNext(s));
  }

  lemma FinishKeepsInv(s: State)
    requires Inv(s) && ControlEnabled(s, true) && !Submitting(s.controlPc)
    ensures Inv(FinishNext(s))
  {
    hide Inv, CancelNext, RemoveNext, MarkNext, FinalPostNext;
    if Cancelling(s.controlPc) {
      CancelFrame(s);
      CancelKeepsInv(s, CancelNext(s));
    }
    else if s.controlPc.FinalLoad? { RemoveKeepsInv(s); }
    else if s.controlPc.FinalPost? { FinalPostKeepsInv(s); }
    else { MarkKeepsInv(s); }
  }

  // the io tasks

  predicate CheckStep(s: State, o: Outcome)
  {
    IoEnabled(s, o) && (s.ioPc.FirstCheck? || s.ioPc.LegacyGet? || s.ioPc.SecondCheck?)
  }

  predicate Checked(s: State, t: State)
    requires PersistPc(s.ioPc)
  {
    && t.(ioPc := s.ioPc) == s && PersistPc(t.ioPc) && t.ioPc.j == s.ioPc.j
    && !t.ioPc.SecondCheck? && (t.ioPc.Schedule? ==> s.ioPc.SecondCheck?)
  }

  lemma CheckKeepsInv(s: State, o: Outcome)
    requires Inv(s) && CheckStep(s, o)
    ensures Inv(CheckNext(s, o))
  {
    hide ActiveInv, NewestInv, JobInv, LogInv, WriteInv, PendingInv, IoInv, RequestInv, ControlInv,
         FinalizeInv, ReplyInv, RecordInv, CheckNext;
    var t := CheckNext(s, o);
    CheckFrame(s, o);
    SameControl(s, t);
    CheckedIo(s, t);
  }

  lemma CheckFrame(s: State, o: Outcome)
    requires CheckStep(s, o)
    ensures Checked(s, CheckNext(s, o))
  {
  }

  lemma CheckedIo(s: State, t: State)
    requires PersistPc(s.ioPc) && Checked(s, t)
    requires IoInv(s.jobs, s.io, s.ioPc, s.ioReply) && ReplyInv(s) && RecordInv(s) && PendingInv(s)
    ensures IoInv(t.jobs, t.io, t.ioPc, t.ioReply) && ReplyInv(t) && RecordInv(t) && PendingInv(t)
  {
    assert IoInv(t.jobs, t.io, t.ioPc, t.ioReply) by { hide ReplyInv, RecordInv, PendingInv; }
    hide IoInv;
    AcknowledgedKept(s, t);
  }

  lemma AnswerKeepsInv(s: State)
    requires Inv(s) && (s.ioPc.CancelInfo? || s.ioPc.Reply?)
    ensures Inv(AnswerNext(s))
  {
    hide ActiveInv, NewestInv, JobInv, LogInv, WriteInv, PendingInv, IoInv, RequestInv, ControlInv,
         FinalizeInv, ReplyInv, RecordInv;
    SameControl(s, AnswerNext(s));
    AnswerIo(s);
    AnswerReplies(s);
  }

  lemma AnswerIo(s: State)
    requires (s.ioPc.CancelInfo? || s.ioPc.Reply?) && IoInv(s.jobs, s.io, s.ioPc, s.ioReply) && JobInv(s.jobs)
    ensures var t := AnswerNext(s); IoInv(t.jobs, t.io, t.ioPc, t.ioReply)
    ensures s.ioPc.Reply? && s.ioPc.j in s.ioReply ==> s.ioReply[s.ioPc.j] == s.ioPc.ok
  {
    assert s.ioPc.CancelInfo? ==> s.jobs[s.ioPc.j].request.Some?;
    hide JobInv;
  }

  lemma AnswerReplies(s: State)
    requires (s.ioPc.CancelInfo? || s.ioPc.Reply?) && ReplyInv(s) && RecordInv(s) && PendingInv(s)
    requires s.ioPc.Reply? && s.ioPc.j in s.ioReply ==> s.ioReply[s.ioPc.j] == s.ioPc.ok
    ensures var t := AnswerNext(s); ReplyInv(t) && RecordInv(t) && PendingInv(t)
  {
    AcknowledgedKept(s, AnswerNext(s));
  }

  lemma AtPersist(s: State)
    requires IoInv(s.jobs, s.io, s.ioPc, s.ioReply) && PersistPc(s.ioPc)
    ensures s.io.current == Some(Persist(s.ioPc.j)) && s.ioPc.j < |s.jobs| && s.jobs[s.ioPc.j].stage.Persisting?
  {
  }

  lemma CreateFrame(s: State, o: Outcome)
    requires IoEnabled(s, o) && s.ioPc.Create?
    ensures var t := CreateNext(s, o);
            && t.(ioPc := s.ioPc, store := s.store, writes := s.writes) == s
            && (t.writes == s.writes || t.writes == s.writes + [Write(|s.io.finished|, s.ioPc.j, PENDING)])
            && (s.maxRetries < 0 ==> t.writes == s.writes)
            && (t.ioPc == SecondCheck(s.ioPc.j) || t.ioPc == Delete(s.ioPc.j)
                  || (t.ioPc.Create? && t.ioPc.j == s.ioPc.j))
            && (t.ioPc.SecondCheck? && s.maxRetries >= 0 ==>
                  t.writes == s.writes + [Write(|s.io.finished|, s.ioPc.j, PENDING)])
  {
  }

  lemma CreateKeepsInv(s: State, o: Outcome)
    requires Inv(s) && IoEnabled(s, o) && s.ioPc.Create?
    ensures Inv(CreateNext(s, o))
  {
    hide ActiveInv, NewestInv, JobInv, LogInv, WriteInv, PendingInv, IoInv, RequestInv, ControlInv,
         FinalizeInv, ReplyInv, RecordInv, CreateNext;
    var t := CreateNext(s, o);
    CreateFrame(s, o);
    SameControl(s, t);
    CreateIo(s, t);
    CreateRecords(s, t);
    CreateWrites(s, o);
  }

  lemma CreateIo(s: State, t: State)
    requires IoInv(s.jobs, s.io, s.ioPc, s.ioReply) && ReplyInv(s) && PendingInv(s) && s.ioPc.Create?
    requires t.(ioPc := s.ioPc, store := s.store, writes := s.writes) == s
    requires t.ioPc == SecondCheck(s.ioPc.j) || t.ioPc == Delete(s.ioPc.j) || (t.ioPc.Create? && t.ioPc.j == s.ioPc.j)
    ensures IoInv(t.jobs, t.io, t.ioPc, t.ioReply) && ReplyInv(t) && PendingInv(t)
  {
    AcknowledgedKept(s, t);
  }

  lemma RecordedOn(s: State, t: State, j: nat)
    requires s.writes <= t.writes && Recorded(s.writes, j)
    ensures Recorded(t.writes, j)
  {
    var i :| 0 <= i < |s.writes| && s.writes[i].job == j && s.writes[i].status == PENDING;
    assert t.writes[i] == s.writes[i];
  }

  lemma CreateRecords(s: State, t: State)
    requires RecordInv(s) && s.ioPc.Create? && t.(ioPc := s.ioPc, store := s.store, writes := s.writes) == s
    requires || t.writes == s.writes
             || (s.maxRetries >= 0 && t.writes == s.writes + [Write(|s.io.finished|, s.ioPc.j, PENDING)])
    requires t.ioPc == SecondCheck(s.ioPc.j) || t.ioPc.Delete? || t.ioPc.Create?
    requires t.ioPc.SecondCheck? && s.maxRetries >= 0 ==>
              t.writes == s.writes + [Write(|s.io.finished|, s.ioPc.j, PENDING)]
    ensures RecordInv(t)
  {
    forall j | Recorded(s.writes, j) ensures Recorded(t.writes, j) {
      RecordedOn(s, t, j);
    }
    if t.ioPc.SecondCheck? && s.maxRetries >= 0 {
      assert t.writes[|s.writes|] == Write(|s.io.finished|, s.ioPc.j, PENDING);
    }
  }

  lemma CreateWrites(s: State, o: Outcome)
    requires IoEnabled(s, o) && s.ioPc.Create? && IoInv(s.jobs, s.io, s.ioPc, s.ioReply)
    requires WriteInv(s.jobs, s.io.Log(), Begun(s), s.writes, s.store)
    ensures var t := CreateNext(s, o); WriteInv(t.jobs, t.io.Log(), Begun(t), t.writes, t.store)
  {
    hide WriteInv, IoInv;
    AtPersist(s);
    WriteAdded(s, s.ioPc.j, PENDING);
  }

  /** The instance is scheduled and answered with nil, or taken out again. */
  predicate DecideStep(s: State, o: Outcome) { IoEnabled(s, o) && (s.ioPc.Schedule? || s.ioPc.Delete?) }

  predicate Decided(s: State, t: State)
    requires s.ioPc.Schedule? || s.ioPc.Delete?
  {
    var j := s.ioPc.j;
    && j < |s.jobs| && t.(ioPc := s.ioPc, jobs := s.jobs, activeJobs := s.activeJobs) == s
    && |t.jobs| == |s.jobs| && t.jobs == s.jobs[j := t.jobs[j]]
    && t.jobs[j].id == s.jobs[j].id && t.jobs[j].request == s.jobs[j].request
    && t.jobs[j].handlerRuns == s.jobs[j].handlerRuns
    && (if s.ioPc.Schedule?
        then t.jobs[j].stage == Scheduled && t.jobs[j].schedules == s.jobs[j].schedules + 1
             && t.activeJobs == s.activeJobs && t.ioPc == Reply(j, true)
        else t.jobs[j].stage == Rejected && t.jobs[j].schedules == s.jobs[j].schedules
             && t.activeJobs == s.activeJobs - {s.jobs[j].id} && t.ioPc == CancelInfo(j))
  }

  lemma DecideFrame(s: State, o: Outcome)
    requires DecideStep(s, o)
    ensures Decided(s, DecideNext(s, o))
  {
  }

  lemma DecideKeepsInv(s: State, o: Outcome)
    requires Inv(s) && DecideStep(s, o)
    ensures Inv(DecideNext(s, o))
  {
    hide ActiveInv, NewestInv, JobInv, LogInv, WriteInv, PendingInv, IoInv, RequestInv, ControlInv,
         FinalizeInv, ReplyInv, RecordInv, DecideNext;
    var t := DecideNext(s, o);
    DecideFrame(s, o);
    AtPersist(s);
    JobMoves(s.jobs, s.ioPc.j, t.jobs[s.ioPc.j]);
    WritesUnmoved(s.jobs, s.ioPc.j, t.jobs[s.ioPc.j], s.io.Log(), Begun(s), s.writes, s.store);
    DecideCounts(s, t);
    DecideControl(s, t);
    DecideIo(s, t);
    DecideReplies(s, t);
  }

  lemma DecideCounts(s: State, t: State)
    requires (s.ioPc.Schedule? || s.ioPc.Delete?) && Decided(s, t) && s.jobs[s.ioPc.j].stage.Persisting?
    requires JobInv(s.jobs) && RecordInv(s) && PendingInv(s)
    ensures JobInv(t.jobs) && RecordInv(t) && PendingInv(t)
  {
  }

  lemma DecideControl(s: State, t: State)
    requires (s.ioPc.Schedule? || s.ioPc.Delete?) && Decided(s, t) && s.jobs[s.ioPc.j].stage.Persisting?
    requires ControlInv(s) && RequestInv(s) && FinalizeInv(s.jobs, s.control.waiting, s.controlPc)
    ensures ControlInv(t) && RequestInv(t) && FinalizeInv(t.jobs, t.control.waiting, t.controlPc)
  {
    hide ControlInv, RequestInv, FinalizeInv;
    DecidePc(s, t);
    DecideRequests(s, t);
    DecideFinalize(s, t);
  }

  lemma DecidePc(s: State, t: State)
    requires (s.ioPc.Schedule? || s.ioPc.Delete?) && Decided(s, t) && s.jobs[s.ioPc.j].stage.Persisting?
    requires ControlInv(s)
    ensures ControlInv(t)
  {
    assert forall k :: 0 <= k < |s.jobs| && k != s.ioPc.j ==> t.jobs[k] == s.jobs[k];
    assert !t.jobs[s.ioPc.j].stage.Admitted? && !t.jobs[s.ioPc.j].stage.Removed?;
  }

  lemma DecideRequests(s: State, t: State)
    requires (s.ioPc.Schedule? || s.ioPc.Delete?) && Decided(s, t) && RequestInv(s)
    ensures RequestInv(t)
  {
    assert forall k :: 0 <= k < |s.jobs| ==> t.jobs[k].request == s.jobs[k].request && t.jobs[k].id == s.jobs[k].id;
  }

  lemma DecideFinalize(s: State, t: State)
    requires (s.ioPc.Schedule? || s.ioPc.Delete?) && Decided(s, t) && s.jobs[s.ioPc.j].stage.Persisting?
    requires FinalizeInv(s.jobs, s.control.waiting, s.controlPc)
    ensures FinalizeInv(t.jobs, t.control.waiting, t.controlPc)
  {
  }

  lemma DecideIo(s: State, t: State)
    requires (s.ioPc.Schedule? || s.ioPc.Delete?) && Decided(s, t) && JobInv(s.jobs)
    requires IoInv(s.jobs, s.io, s.ioPc, s.ioReply)
    ensures IoInv(t.jobs, t.io, t.ioPc, t.ioReply)
  {
    assert s.jobs[s.ioPc.j].request.Some?;
    hide JobInv;
  }

  lemma DecideReplies(s: State, t: State)
    requires (s.ioPc.Schedule? || s.ioPc.Delete?) && Decided(s, t) && ReplyInv(s)
    ensures ReplyInv(t)
  {
    AcknowledgedKept(s, t);
  }

  /** updateStatusIO and the final write. */
  predicate UpdateStep(s: State, o: Outcome) { (s.ioPc.Running? || s.ioPc.Final?) && IoEnabled(s, o) }

  function Updates(s: State): Status
    requires s.ioPc.Running? || s.ioPc.Final?
  {
    if s.ioPc.Running? then RUNNING else s.ioPc.status
  }

  predicate Updated(s: State, t: State)
    requires s.ioPc.Running? || s.ioPc.Final?
  {
    && t.(ioPc := s.ioPc, store := s.store, writes := s.writes, unwritten := s.unwritten) == s
    && s.writes <= t.writes && (s.maxRetries < 0 ==> t.writes == s.writes)
    && (if s.ioPc.Running? then t.ioPc.IoOver? || (t.ioPc.Running? && t.ioPc.j == s.ioPc.j)
        else (t.ioPc.FinalDone? && t.ioPc.counted == s.ioPc.counted)
             || (t.ioPc.Final? && t.ioPc.(attempt := s.ioPc.attempt, wrote := s.ioPc.wrote) == s.ioPc))
  }

  lemma UpdateFrame(s: State, o: Outcome)
    requires UpdateStep(s, o)
    ensures Updated(s, UpdateNext(s, o))
    ensures UpdateNext(s, o).(ioPc := s.ioPc, unwritten := s.unwritten) == Attempted(s, s.ioPc.j, Updates(s), o)
  {
    hide Attempted, AnnounceNext, ConcludeNext;
    AttemptedFrame(s, s.ioPc.j, Updates(s), o);
    assert s.maxRetries < 0 ==> o.NoAttempt?;
    hide IoEnabled;
    if s.ioPc.Running? { AnnounceFrame(s, o); } else { ConcludeFrame(s, o); }
  }

  lemma AnnounceFrame(s: State, o: Outcome)
    requires IoEnabled(s, o) && s.ioPc.Running?
    ensures var t := AnnounceNext(s, o);
            && t.(ioPc := s.ioPc) == Attempted(s, s.ioPc.j, RUNNING, o)
            && (t.ioPc.IoOver? || (t.ioPc.Running? && t.ioPc.j == s.ioPc.j))
  {
    AttemptedFrame(s, s.ioPc.j, RUNNING, o);
    hide Attempted;
  }

  lemma ConcludeFrame(s: State, o: Outcome)
    requires IoEnabled(s, o) && s.ioPc.Final?
    ensures var t := ConcludeNext(s, o);
            && t.(ioPc := s.ioPc, unwritten := s.unwritten) == Attempted(s, s.ioPc.j, s.ioPc.status, o)
            && (|| (t.ioPc.FinalDone? && t.ioPc.counted == s.ioPc.counted)
                || (t.ioPc.Final? && t.ioPc.(attempt := s.ioPc.attempt, wrote := s.ioPc.wrote) == s.ioPc))
  {
    AttemptedFrame(s, s.ioPc.j, s.ioPc.status, o);
    hide Attempted;
  }

  lemma AttemptedFrame(s: State, j: nat, status: Status, o: Outcome)
    requires j < |s.jobs|
    ensures var u := Attempted(s, j, status, o);
            && u.(store := s.store, writes := s.writes) == s && s.writes <= u.writes
            && (o.NoAttempt? ==> u == s)
  {
  }

  lemma UpdateKeepsInv(s: State, o: Outcome)
    requires Inv(s) && UpdateStep(s, o)
    ensures Inv(UpdateNext(s, o))
  {
    hide ActiveInv, NewestInv, JobInv, LogInv, WriteInv, PendingInv, IoInv, RequestInv, ControlInv,
         FinalizeInv, ReplyInv, RecordInv, UpdateNext;
    var t := UpdateNext(s, o);
    UpdateFrame(s, o);
    SameControl(s, t);
    UpdatedIo(s, t);
    UpdateWrites(s, o);
    UpdatedRecords(s, t);
  }

  lemma UpdatedIo(s: State, t: State)
    requires (s.ioPc.Running? || s.ioPc.Final?) && Updated(s, t)
    requires IoInv(s.jobs, s.io, s.ioPc, s.ioReply) && PendingInv(s) && ReplyInv(s)
    ensures IoInv(t.jobs, t.io, t.ioPc, t.ioReply) && PendingInv(t) && ReplyInv(t)
  {
    assert IoInv(t.jobs, t.io, t.ioPc, t.ioReply) by { hide ReplyInv, PendingInv; }
    hide IoInv;
    AcknowledgedKept(s, t);
  }

  lemma UpdateWrites(s: State, o: Outcome)
    requires UpdateStep(s, o) && IoInv(s.jobs, s.io, s.ioPc, s.ioReply)
    requires WriteInv(s.jobs, s.io.Log(), Begun(s), s.writes, s.store)
    ensures var t := UpdateNext(s, o); WriteInv(t.jobs, t.io.Log(), Begun(t), t.writes, t.store)
  {
    hide WriteInv, IoInv, UpdateNext, Attempted;
    AtUpdate(s);
    UpdateFrame(s, o);
    AttemptWrites(s, s.ioPc.j, Updates(s), o);
  }

  lemma AttemptWrites(s: State, j: nat, status: Status, o: Outcome)
    requires WriteInv(s.jobs, s.io.Log(), Begun(s), s.writes, s.store)
    requires s.io.current.Some? && s.io.current.value.job == j < |s.jobs| && StatusOf(s.io.current.value) == status
    ensures var u := Attempted(s, j, status, o); WriteInv(s.jobs, s.io.Log(), Begun(s), u.writes, u.store)
  {
    hide WriteInv;
    WriteAdded(s, j, status);
  }

  lemma AtUpdate(s: State)
    requires IoInv(s.jobs, s.io, s.ioPc, s.ioReply) && (s.ioPc.Running? || s.ioPc.Final?)
    ensures s.io.current.Some? && s.io.current.value.job == s.ioPc.j && StatusOf(s.io.current.value) == Updates(s)
  {
  }

  lemma UpdatedRecords(s: State, t: State)
    requires (s.ioPc.Running? || s.ioPc.Final?) && Updated(s, t) && RecordInv(s)
    ensures RecordInv(t)
  {
    forall j | Recorded(s.writes, j) ensures Recorded(t.writes, j) {
      RecordedOn(s, t, j);
    }
  }

  lemma DoneKeepsInv(s: State)
    requires Inv(s) && s.ioPc.FinalDone?
    ensures Inv(DoneNext(s))
  {
    hide ActiveInv, NewestInv, JobInv, LogInv, WriteInv, PendingInv, IoInv, RequestInv, ControlInv,
         FinalizeInv, ReplyInv, RecordInv;
    SameControl(s, DoneNext(s));
    DoneRest(s);
  }

  lemma DoneRest(s: State)
    requires s.ioPc.FinalDone? && IoInv(s.jobs, s.io, s.ioPc, s.ioReply) && PendingInv(s) && ReplyInv(s) && RecordInv(s)
    ensures var t := DoneNext(s); IoInv(t.jobs, t.io, t.ioPc, t.ioReply) && PendingInv(t) && ReplyInv(t) && RecordInv(t)
  {
    var t := DoneNext(s);
    assert IoInv(t.jobs, t.io, t.ioPc, t.ioReply) by { hide ReplyInv, PendingInv, RecordInv; }
    hide IoInv;
    AcknowledgedKept(s, t);
  }

  lemma PersistKeepsInv(s: State, o: Outcome)
    requires Inv(s) && !Updating(s.ioPc) && IoEnabled(s, o)
    ensures Inv(PersistNext(s, o))
  {
    hide Inv, CreateNext, DecideNext, CheckNext, AnswerNext;
    if s.ioPc.Create? { CreateKeepsInv(s, o); }
    else if s.ioPc.Schedule? || s.ioPc.Delete? { DecideKeepsInv(s, o); }
    else if s.ioPc.CancelInfo? || s.ioPc.Reply? { AnswerKeepsInv(s); }
    else { CheckKeepsInv(s, o); }
  }

  lemma IoKeepsInv(s: State, o: Outcome)
    requires Inv(s) && IoEnabled(s, o)
    ensures Inv(IoNext(s, o))
  {
    hide Inv, UpdateNext, DoneNext, PersistNext;
    if s.ioPc.FinalDone? { DoneKeepsInv(s); }
    else if Updating(s.ioPc) { UpdateKeepsInv(s, o); }
    else { PersistKeepsInv(s, o); }
  }

  // the execution wrappers

  lemma ExecKeepsInv(s: State, e: Event)
    requires Inv(s) && IsExec(e) && Enabled(s, e)
    ensures Inv(ExecNext(s, e))
  {
    hide ActiveInv, NewestInv, JobInv, LogInv, WriteInv, PendingInv, IoInv, RequestInv, ControlInv,
         FinalizeInv, ReplyInv, RecordInv;
    ExecJobs(s, e);
    ExecControl(s, e);
    ExecFinalize(s, e);
    ExecIo(s, e);
    ExecLog(s, e);
    ExecReplies(s, e);
  }

  lemma ExecJobs(s: State, e: Event)
    requires IsExec(e) && Enabled(s, e)
    requires ActiveInv(s.jobs, s.activeJobs) && NewestInv(s.jobs) && JobInv(s.jobs)
    ensures var t := ExecNext(s, e); ActiveInv(t.jobs, t.activeJobs) && NewestInv(t.jobs) && JobInv(t.jobs)
  {
    hide ActiveInv, NewestInv;
    ExecKeepsJobs(s, e);
    hide JobInv;
    JobMoves(s.jobs, e.j, ExecNext(s, e).jobs[e.j]);
  }

  lemma ExecKeepsJobs(s: State, e: Event)
    requires IsExec(e) && Enabled(s, e) && JobInv(s.jobs)
    ensures JobInv(ExecNext(s, e).jobs)
  {
  }

  lemma ExecFrame(s: State, e: Event)
    requires IsExec(e) && Enabled(s, e)
    ensures var t := ExecNext(s, e);
            && t.requests == s.requests && t.controlPc == s.controlPc && t.activeJobs == s.activeJobs
            && t.control.current == s.control.current
            && (t.control.waiting == s.control.waiting
                || exists st: Status :: t.control.waiting == s.control.waiting + [Finalize(e.j, st)])
            && e.j < |s.jobs| == |t.jobs|
            && t.jobs[e.j].id == s.jobs[e.j].id && t.jobs[e.j].request == s.jobs[e.j].request
            && Started(s.jobs[e.j].stage) && Live(s.jobs[e.j].stage) && !s.jobs[e.j].stage.Finalizing?
            && Started(t.jobs[e.j].stage) && Live(t.jobs[e.j].stage)
            && (forall j :: 0 <= j < |s.jobs| && j != e.j ==> t.jobs[j] == s.jobs[j])
  {
    if e.ExecReport? {
      assert ExecNext(s, e).control.waiting == s.control.waiting + [Finalize(e.j, s.jobs[e.j].stage.status)];
    }
  }

  lemma ExecControl(s: State, e: Event)
    requires IsExec(e) && Enabled(s, e) && ControlInv(s) && RequestInv(s)
    ensures var t := ExecNext(s, e); ControlInv(t) && RequestInv(t)
  {
    hide ControlInv, RequestInv;
    ExecPc(s, e);
    ExecRequests(s, e);
  }

  lemma ExecPc(s: State, e: Event)
    requires IsExec(e) && Enabled(s, e) && ControlInv(s)
    ensures ControlInv(ExecNext(s, e))
  {
    hide ExecNext;
    ExecFrame(s, e);
  }

  lemma ExecRequests(s: State, e: Event)
    requires IsExec(e) && Enabled(s, e) && RequestInv(s)
    ensures RequestInv(ExecNext(s, e))
  {
    hide ExecNext;
    ExecFrame(s, e);
  }

  lemma ExecFinalize(s: State, e: Event)
    requires IsExec(e) && Enabled(s, e) && FinalizeInv(s.jobs, s.control.waiting, s.controlPc)
    requires ControlInv(s)
    ensures var t := ExecNext(s, e); FinalizeInv(t.jobs, t.control.waiting, t.controlPc)
  {
    var t := ExecNext(s, e);
    forall j | 0 <= j < |t.jobs| && t.jobs[j].stage.Finalizing?
      ensures Finalize(j, t.jobs[j].stage.status) in t.control.waiting
              || t.controlPc == FinalLoad(j, t.jobs[j].stage.status)
    {
      if j == e.j {
        assert t.control.waiting[|s.control.waiting|] == Finalize(j, t.jobs[j].stage.status);
      }
    }
  }

  lemma ExecIo(s: State, e: Event)
    requires IsExec(e) && Enabled(s, e)
    requires IoInv(s.jobs, s.io, s.ioPc, s.ioReply) && RecordInv(s) && PendingInv(s)
    ensures var t := ExecNext(s, e); IoInv(t.jobs, t.io, t.ioPc, t.ioReply) && RecordInv(t) && PendingInv(t)
  {
    hide IoInv, RecordInv, PendingInv;
    var t := ExecNext(s, e);
    IoUnmoved(s.jobs, e.j, t.jobs[e.j], s.io, s.ioPc, s.ioReply);
    IoUnmovedByPost(t.jobs, s.io, s.ioPc, s.ioReply, SetRunning(e.j));
    assert RecordInv(t) by { ExecRecords(s, e); }
    assert PendingInv(t) by { ExecPending(s, e); }
  }

  lemma ExecRecords(s: State, e: Event)
    requires IsExec(e) && Enabled(s, e) && RecordInv(s)
    ensures RecordInv(ExecNext(s, e))
  {
  }

  lemma ExecPending(s: State, e: Event)
    requires IsExec(e) && Enabled(s, e) && PendingInv(s)
    ensures PendingInv(ExecNext(s, e))
  {
    PostedPending(s.io.waiting, SetRunning(e.j));
  }

  lemma ExecLog(s: State, e: Event)
    requires IsExec(e) && Enabled(s, e) && NewestInv(s.jobs)
    requires LogInv(s.jobs, s.io.Log()) && WriteInv(s.jobs, s.io.Log(), Begun(s), s.writes, s.store)
    ensures var t := ExecNext(s, e);
            LogInv(t.jobs, t.io.Log()) && WriteInv(t.jobs, t.io.Log(), Begun(t), t.writes, t.store)
  {
    hide LogInv, WriteInv, NewestInv;
    var t := ExecNext(s, e);
    WritesUnmoved(s.jobs, e.j, t.jobs[e.j], s.io.Log(), Begun(s), s.writes, s.store);
    if e.ExecAnnounce? {
      LogOnlyGrows(s.io);
      LogPosted(s.jobs, e.j, t.jobs[e.j], s.io.Log(), SetRunning(e.j));
      WritesUnmovedByPost(t.jobs, s.io.Log(), SetRunning(e.j), Begun(s), s.writes, s.store);
    } else {
      JobMoves(s.jobs, e.j, t.jobs[e.j]);
    }
  }

  lemma ExecReplies(s: State, e: Event)
    requires IsExec(e) && Enabled(s, e) && ReplyInv(s)
    ensures ReplyInv(ExecNext(s, e))
  {
    AcknowledgedKept(s, ExecNext(s, e));
  }

  // recovery

  lemma RecoverKeepsInv(s: State, id: JobID, found: bool)
    requires Inv(s) && Enabled(s, RecoverJob(id, found))
    ensures Inv(RecoverNext(s, id, found))
  {
    hide ActiveInv, NewestInv, JobInv, LogInv, WriteInv, PendingInv, IoInv, RequestInv, ControlInv,
         FinalizeInv, ReplyInv, RecordInv;
    RecoverJobs(s, id, found);
    RecoverControl(s, id, found);
    RecoverIo(s, id, found);
    RecoverLog(s, id, found);
  }

  lemma RecoverJobs(s: State, id: JobID, found: bool)
    requires Enabled(s, RecoverJob(id, found))
    requires ActiveInv(s.jobs, s.activeJobs) && NewestInv(s.jobs) && JobInv(s.jobs)
    ensures var t := RecoverNext(s, id, found); ActiveInv(t.jobs, t.activeJobs) && NewestInv(t.jobs) && JobInv(t.jobs)
  {
    var t := RecoverNext(s, id, found);
    assert JobInv(t.jobs) by { hide ActiveInv, NewestInv; }
    assert id !in s.activeJobs;
    hide ActiveInv, NewestInv, JobInv;
    if found {
      JobEnters(s.jobs, t.jobs[|s.jobs|], s.activeJobs);
    } else {
      SkippedEnters(s.jobs, t.jobs[|s.jobs|], s.activeJobs);
    }
  }

  lemma SkippedEnters(jobs: seq<Job>, job: Job, active: map<JobID, nat>)
    requires ActiveInv(jobs, active) && NewestInv(jobs) && job.stage.Unrunnable?
    requires forall j :: 0 <= j < |jobs| ==> jobs[j].id != job.id
    ensures ActiveInv(jobs + [job], active) && NewestInv(jobs + [job])
  {
  }

  lemma RecoverControl(s: State, id: JobID, found: bool)
    requires Enabled(s, RecoverJob(id, found))
    requires ControlInv(s) && RequestInv(s) && FinalizeInv(s.jobs, s.control.waiting, s.controlPc)
    ensures var t := RecoverNext(s, id, found);
            ControlInv(t) && RequestInv(t) && FinalizeInv(t.jobs, t.control.waiting, t.controlPc)
  {
    hide ControlInv, RequestInv, FinalizeInv;
    RecoverPc(s, id, found);
    RecoverRequests(s, id, found);
    RecoverFinalize(s, id, found);
  }

  lemma RecoverPc(s: State, id: JobID, found: bool)
    requires RecoverEnabled(s, id) && ControlInv(s)
    ensures ControlInv(RecoverNext(s, id, found))
  {
  }

  lemma RecoverRequests(s: State, id: JobID, found: bool)
    requires RecoverEnabled(s, id) && RequestInv(s)
    ensures RequestInv(RecoverNext(s, id, found))
  {
  }

  lemma RecoverFinalize(s: State, id: JobID, found: bool)
    requires RecoverEnabled(s, id) && FinalizeInv(s.jobs, s.control.waiting, s.controlPc)
    ensures var t := RecoverNext(s, id, found); FinalizeInv(t.jobs, t.control.waiting, t.controlPc)
  {
  }

  lemma RecoverIo(s: State, id: JobID, found: bool)
    requires Enabled(s, RecoverJob(id, found))
    requires IoInv(s.jobs, s.io, s.ioPc, s.ioReply) && RecordInv(s) && PendingInv(s) && ReplyInv(s)
    ensures var t := RecoverNext(s, id, found);
            IoInv(t.jobs, t.io, t.ioPc, t.ioReply) && RecordInv(t) && PendingInv(t) && ReplyInv(t)
  {
    hide IoInv;
    var t := RecoverNext(s, id, found);
    assert IoInv(t.jobs, t.io, t.ioPc, t.ioReply) by {
      IoUnmovedByEntry(s.jobs, t.jobs[|s.jobs|], s.io, s.ioPc, s.ioReply);
      IoUnmovedByPost(t.jobs, s.io, s.ioPc, s.ioReply, SetFinal(|s.jobs|, FAILED, false));
    }
    AcknowledgedKept(s, t);
    PostedPending(s.io.waiting, SetFinal(|s.jobs|, FAILED, false));
  }

  lemma RecoverLog(s: State, id: JobID, found: bool)
    requires Enabled(s, RecoverJob(id, found))
    requires LogInv(s.jobs, s.io.Log()) && WriteInv(s.jobs, s.io.Log(), Begun(s), s.writes, s.store)
    ensures var t := RecoverNext(s, id, found);
            LogInv(t.jobs, t.io.Log()) && WriteInv(t.jobs, t.io.Log(), Begun(t), t.writes, t.store)
  {
    hide LogInv, WriteInv;
    var t := RecoverNext(s, id, found);
    var log := s.io.Log();
    LogUnmovedByEntry(s.jobs, t.jobs[|s.jobs|], log);
    WritesUnmovedByEntry(s.jobs, t.jobs[|s.jobs|], log, Begun(s), s.writes, s.store);
    if !found {
      var task := SetFinal(|s.jobs|, FAILED, false);
      LogOnlyGrows(s.io);
      WritesUnmovedByPost(t.jobs, log, task, Begun(s), s.writes, s.store);
      FreshLogPosted(s.jobs, t.jobs[|s.jobs|], log, task);
    }
  }

  /** The first task of an ID not seen before. */
  lemma FreshLogPosted(jobs: seq<Job>, job: Job, log: seq<IoTask>, t: IoTask)
    requires LogInv(jobs, log) && job.stage.Unrunnable? && t.job == |jobs| && t == SetFinal(|jobs|, FAILED, false)
    requires forall j :: 0 <= j < |jobs| ==> jobs[j].id != job.id
    ensures LogInv(jobs + [job], log + [t])
  {
  }

  lemma CancelOneKeepsInv(s: State, id: JobID)
    requires Inv(s) && Enabled(s, CancelOne(id))
    ensures Inv(CancelOneNext(s, id))
  {
    hide Inv;
    CancelKeepsInv(s, CancelOneNext(s, id));
  }

  lemma StepKeepsInv(s: State, e: Event)
    requires Inv(s) && Enabled(s, e)
    ensures Inv(Apply(s, e))
  {
    hide Inv, ExecNext, ClientNext, ShutdownNext, RunnerNext, RecoverNext, IoNext, SubmitNext, FinishNext,
         CancelOneNext;
    if IsExec(e) { ExecKeepsInv(s, e); }
    else if IsClient(e) { ClientStep(s, e); }
    else if IsShutdown(e) { ShutdownStep(s, e); }
    else if IsRunner(e) { RunnerStep(s, e); }
    else if e.CancelOne? { CancelOneKeepsInv(s, e.id); }
    else if e.RecoverJob? { RecoverKeepsInv(s, e.id, e.found); }
    else if e.IoStep? { IoKeepsInv(s, e.outcome); }
    else if Submitting(s.controlPc) { SubmitKeepsInv(s, e.choice); }
    else { FinishKeepsInv(s); }
  }

  ghost predicate Reachable(s: State)
  {
    exists durable, maxRetries, store :: Manager().Reaches(Init(durable, maxRetries, store), s)
  }

  lemma ReachableInv(s: State)
    requires Reachable(s)
    ensures Inv(s)
  {
    hide Inv, Enabled, Apply, Init;
    var durable, maxRetries, store :| Manager().Reaches(Init(durable, maxRetries, store), s);
    InitInv(durable, maxRetries, store);
    forall s, e | Inv(s) && Enabled(s, e) ensures Inv(Apply(s, e)) {
      StepKeepsInv(s, e);
    }
    InvariantReached(Manager(), s => Inv(s), Init(durable, maxRetries, store), s);
  }

  lemma Next(s: State, e: Event)
    requires Reachable(s) && Enabled(s, e)
    ensures Reachable(Apply(s, e))
  {
    hide Enabled, Apply, Init;
    var durable, maxRetries, store :| Manager().Reaches(Init(durable, maxRetries, store), s);
    ReachesNext(Manager(), Init(durable, maxRetries, store), s, e);
  }
}
