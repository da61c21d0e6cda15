/** What a nil result of JobManager.Shutdown is worth. Shutdown sets closed, has the
    control runner cancel every active job, and then polls two things one after the
    other: a Range over activeJobs, and pendingFinalize. */
module JobManagerShutdown {
  import opened Counting
  import opened Runs
  import opened FifoRunner
  import opened JobManagers
  import opened JobManagerInvariant
  import opened JobManagerWrites

  // ----- what is left to write when it returns -----

  /** The store is owed a terminal status: */
  predicate Due(st: Stage) { HandlerOver(st) || st.Unrunnable? }

  /** this one. */
  function DueStatus(st: Stage): Status
    requires Due(st)
  {
    if st.Unrunnable? then FAILED else st.status
  }

  /** It has been written. */
  ghost predicate FinalWritten(s: State, j: nat)
    requires j < |s.jobs| && Due(s.jobs[j].stage)
  {
    exists i :: 0 <= i < |s.writes| && s.writes[i].job == j && s.writes[i].status == DueStatus(s.jobs[j].stage)
  }

  ghost predicate AllWritten(s: State)
  {
    forall j :: 0 <= j < |s.jobs| && Due(s.jobs[j].stage) ==> FinalWritten(s, j)
  }

  /** No job is running, waiting or yet to be recorded. */
  ghost predicate NothingLeft(s: State)
  {
    AllWritten(s) && forall j :: 0 <= j < |s.jobs| ==> Settled(s.jobs[j].stage)
  }

  /** finalizeJobControl is between LoadAndDelete and Add(1). */
  predicate Between(s: State) { s.controlPc.FinalCancel? || s.controlPc.FinalAdd? }

  /** Some instance is between its handler's return and LoadAndDelete. */
  predicate SomeUnfinalized(s: State)
  {
    exists j :: 0 <= j < |s.jobs| && (s.jobs[j].stage.Reporting? || s.jobs[j].stage.Finalizing?)
  }

  /** The FAILED write of a job recovered without a handler, which pendingFinalize does
      not count, waits with the io runner, or its attempts go on and none has written. */
  predicate RecoveryOutstanding(io: Fifo<IoTask>, pc: IoPc)
  {
    || (exists k :: 0 <= k < |io.waiting| && io.waiting[k].SetFinal? && !io.waiting[k].counted)
    || (pc.Final? && !pc.counted && !pc.wrote)
  }

  /** Shutdown's CAS, */
  function SetsClosed(s: State): State
    requires !s.shut.closed
  {
    Apply(s, CloseManager)
  }

  /** and the load of pendingFinalize that ends its poll. */
  function Answered(s: State): State
    requires s.shut.pc.SawNoneActive?
  {
    Apply(s, LoadPending)
  }

  lemma AnsweredNil(s: State)
    requires s.shut.pc.SawNoneActive? && s.pendingFinalize == 0
    ensures Answered(s).shut.pc.ReturnedNil?
  {
  }

  /** Shutdown is about to return nil: the Range saw no active job, and pendingFinalize
      is 0 now. Nothing is left if and only if still no job is active, finalizeJobControl
      is not between LoadAndDelete and Add(1), no final write has ended without writing
      and no recovered FAILED write is outstanding. Every status that is due has been
      written if and only if, beside the last three, no finished instance is still on its
      way to LoadAndDelete. */
  lemma NilShutdownMeansAllWrittenIff(s: State)
    requires Reachable(s) && s.shut.pc.SawNoneActive? && s.pendingFinalize == 0
    ensures Answered(s).shut.pc.ReturnedNil?
    ensures NothingLeft(s) <==>
              s.activeJobs == map[] && !Between(s) && s.unwritten == {} && !RecoveryOutstanding(s.io, s.ioPc)
    ensures AllWritten(s) <==>
              !SomeUnfinalized(s) && !Between(s) && s.unwritten == {} && !RecoveryOutstanding(s.io, s.ioPc)
  {
    hide Reachable, WritesInv, NothingLeft, AllWritten, Between, SomeUnfinalized, RecoveryOutstanding, Apply;
    AnsweredNil(s);
    ReachableWrites(s);
    WrittenIff(s);
    NothingLeftIff(s);
  }

  /** In terms of positions of the io log: a due status has been written exactly when the
      final write of its instance is at a position that has written. */
  lemma WrittenByPosition(s: State, j: nat, p: nat)
    requires LogInv(s.jobs, s.io.Log()) && WriteInv(s.jobs, s.io.Log(), Begun(s), s.writes, s.store)
    requires j < |s.jobs| && Due(s.jobs[j].stage) && (s.jobs[j].stage.Unrunnable? || Terminal(s.jobs[j].stage.status))
    requires p < |s.io.Log()| && s.io.Log()[p].SetFinal? && s.io.Log()[p].job == j
    ensures FinalWritten(s, j) ==> WrittenAt(s.writes, p)
    ensures WrittenAt(s.writes, p) && s.io.Log()[p].status == DueStatus(s.jobs[j].stage) ==> FinalWritten(s, j)
  {
    if FinalWritten(s, j) {
      var i: nat :| i < |s.writes| && s.writes[i].job == j && s.writes[i].status == DueStatus(s.jobs[j].stage);
      WriteComesFrom(s, i);
      hide WriteInv;
      FinalIsUnique(s.jobs, s.io.Log(), p, s.writes[i].pos);
    }
    if WrittenAt(s.writes, p) {
      var i: nat :| i < |s.writes| && s.writes[i].pos == p;
      WriteComesFrom(s, i);
    }
  }

  lemma WriteComesFrom(s: State, i: nat)
    requires WriteInv(s.jobs, s.io.Log(), Begun(s), s.writes, s.store) && i < |s.writes|
    ensures var p := s.writes[i].pos;
            && p < |s.io.Log()| && s.io.Log()[p].job == s.writes[i].job && StatusOf(s.io.Log()[p]) == s.writes[i].status
            && (Terminal(s.writes[i].status) ==> s.io.Log()[p].SetFinal?)
  {
  }

  lemma DueIsTerminal(s: State, j: nat)
    requires JobInv(s.jobs) && j < |s.jobs| && Due(s.jobs[j].stage)
    ensures s.jobs[j].stage.Unrunnable? || Terminal(s.jobs[j].stage.status)
  {
    assert Sound(s.jobs[j].stage);
  }

  lemma WrittenIff(s: State)
    requires WritesInv(s) && s.pendingFinalize == 0
    ensures AllWritten(s) <==>
              !SomeUnfinalized(s) && !Between(s) && s.unwritten == {} && !RecoveryOutstanding(s.io, s.ioPc)
  {
    hide ActiveInv, NewestInv, JobInv, ControlInv, FinalizeInv, RequestInv, IoInv, LogInv, WriteInv, RecordInv,
         ReplyInv, PendingInv, FinalInv, RecoveredInv, FinalWritten, RecoveryOutstanding;
    if SomeUnfinalized(s) {
      var j: nat :| j < |s.jobs| && (s.jobs[j].stage.Reporting? || s.jobs[j].stage.Finalizing?);
      NotYetWritten(s, j);
    } else if Between(s) {
      AtWindow(s);
      NotYetWritten(s, s.controlPc.j);
    } else if s.unwritten != {} {
      var j: nat :| j in s.unwritten;
      LostForEver(s, j);
    } else if RecoveryOutstanding(s.io, s.ioPc) {
      var j := NotYetRecovered(s);
    } else {
      forall j | 0 <= j < |s.jobs| && Due(s.jobs[j].stage) ensures FinalWritten(s, j) {
        WindowsClosed(s, j);
      }
    }
  }

  lemma AtWindow(s: State)
    requires ControlInv(s) && Between(s)
    ensures s.controlPc.j < |s.jobs| && s.jobs[s.controlPc.j].stage.Removed?
  {
  }

  /** The io runner has not been given the final write before the instance is closed. */
  lemma NotYetWritten(s: State, j: nat)
    requires LogInv(s.jobs, s.io.Log()) && WriteInv(s.jobs, s.io.Log(), Begun(s), s.writes, s.store) && JobInv(s.jobs)
    requires j < |s.jobs| && HandlerOver(s.jobs[j].stage) && !s.jobs[j].stage.Closed?
    ensures !FinalWritten(s, j)
  {
    DueIsTerminal(s, j);
    hide JobInv;
    if FinalWritten(s, j) {
      var i: nat :| i < |s.writes| && s.writes[i].job == j && s.writes[i].status == DueStatus(s.jobs[j].stage);
      var p := s.writes[i].pos;
      assert s.io.Log()[p].job == j && s.io.Log()[p].SetFinal?;
      hide WriteInv;
      FinalIsDue(s.jobs, s.io.Log(), p);
    }
  }

  /** Only closed and unrunnable instances have a final write with the io runner. */
  lemma FinalIsDue(jobs: seq<Job>, log: seq<IoTask>, p: nat)
    requires LogInv(jobs, log) && p < |log| && log[p].SetFinal?
    ensures log[p].job < |jobs| && (jobs[log[p].job].stage.Closed? || jobs[log[p].job].stage.Unrunnable?)
  {
    assert Rank(log[p]) <= MaxRank(jobs[log[p].job].stage);
  }

  /** A final write that ended without writing is not made up for. */
  lemma LostForEver(s: State, j: nat)
    requires WritesInv(s) && j in s.unwritten
    ensures j < |s.jobs| && Due(s.jobs[j].stage) && !FinalWritten(s, j)
  {
    hide ActiveInv, NewestInv, JobInv, ControlInv, FinalizeInv, RequestInv, IoInv, LogInv, WriteInv, RecordInv,
         ReplyInv, PendingInv, RecoveredInv, FinalWritten, WrittenAt;
    var p: nat :| Ended(s.io, s.ioPc, p, j);
    assert s.io.Log()[p].SetFinal? && s.io.Log()[p].job == j;
    hide FinalInv;
    FinalIsDue(s.jobs, s.io.Log(), p);
    DueIsTerminal(s, j);
    WrittenByPosition(s, j, p);
  }

  /** A recovered FAILED write that is outstanding has not been written. */
  lemma NotYetRecovered(s: State) returns (j: nat)
    requires WritesInv(s) && RecoveryOutstanding(s.io, s.ioPc)
    ensures j < |s.jobs| && Due(s.jobs[j].stage) && !FinalWritten(s, j)
  {
    hide ActiveInv, NewestInv, JobInv, ControlInv, FinalizeInv, RequestInv, IoInv, LogInv, WriteInv, RecordInv,
         ReplyInv, PendingInv, RecoveredInv, FinalWritten, FinalInv, WrittenAt;
    var p := Outstanding(s);
    j := s.io.Log()[p].job;
    FinalIsDue(s.jobs, s.io.Log(), p);
    DueIsTerminal(s, j);
    WrittenByPosition(s, j, p);
  }

  lemma Outstanding(s: State) returns (p: nat)
    requires IoInv(s.jobs, s.io, s.ioPc, s.ioReply) && FinalInv(s.io, s.ioPc, s.writes, s.unwritten)
    requires WriteInv(s.jobs, s.io.Log(), Begun(s), s.writes, s.store) && RecoveryOutstanding(s.io, s.ioPc)
    ensures p < |s.io.Log()| && s.io.Log()[p].SetFinal? && !WrittenAt(s.writes, p)
  {
    if s.ioPc.Final? && !s.ioPc.counted && !s.ioPc.wrote {
      p := |s.io.finished|;
      assert s.io.Log()[p] == s.io.current.value;
    } else {
      var k: nat :| k < |s.io.waiting| && s.io.waiting[k].SetFinal? && !s.io.waiting[k].counted;
      p := Begun(s) + k;
      assert s.io.Log()[p] == s.io.waiting[k];
    }
  }

  /** Otherwise the final write of a settled instance has been made, */
  lemma WindowsClosed(s: State, j: nat)
    requires WritesInv(s) && s.pendingFinalize == 0
    requires !SomeUnfinalized(s) && !Between(s) && s.unwritten == {} && !RecoveryOutstanding(s.io, s.ioPc)
    requires j < |s.jobs| && Due(s.jobs[j].stage)
    ensures FinalWritten(s, j)
  {
    hide ActiveInv, NewestInv, JobInv, FinalizeInv, RequestInv, IoInv, LogInv, WriteInv, RecordInv, ReplyInv, FinalInv,
         RecoveredInv, FinalWritten, RecoveryOutstanding, WrittenAt;
    assert !s.jobs[j].stage.Removed?;
    hide ControlInv, PendingInv, Between, SomeUnfinalized;
    DueIsTerminal(s, j);
    var p := FinalPosition(s, j);
    PositionWritten(s, p);
    WrittenByPosition(s, j, p);
  }

  lemma FinalPosition(s: State, j: nat) returns (p: nat)
    requires LogInv(s.jobs, s.io.Log()) && RecoveredInv(s.jobs, s.io.Log())
    requires j < |s.jobs| && (s.jobs[j].stage.Closed? || s.jobs[j].stage.Unrunnable?)
    ensures p < |s.io.Log()| && s.io.Log()[p] == SetFinal(j, DueStatus(s.jobs[j].stage), s.jobs[j].stage.Closed?)
  {
    var t := SetFinal(j, DueStatus(s.jobs[j].stage), s.jobs[j].stage.Closed?);
    assert t in s.io.Log();
    p :| 0 <= p < |s.io.Log()| && s.io.Log()[p] == t;
  }

  /** because its attempts are over and one of them has written. */
  lemma PositionWritten(s: State, p: nat)
    requires IoInv(s.jobs, s.io, s.ioPc, s.ioReply) && FinalInv(s.io, s.ioPc, s.writes, s.unwritten) && PendingInv(s)
    requires s.pendingFinalize == 0 && s.unwritten == {} && !RecoveryOutstanding(s.io, s.ioPc)
    requires p < |s.io.Log()| && s.io.Log()[p].SetFinal?
    ensures WrittenAt(s.writes, p)
  {
    var t := s.io.Log()[p];
    if p < |s.io.finished| {
      assert Ended(s.io, s.ioPc, p, t.job);
    } else if p < Begun(s) {
      assert t == s.io.current.value;
      assert s.ioPc.Final? || Ended(s.io, s.ioPc, p, t.job);
    } else {
      var k: nat := p - Begun(s);
      assert t == s.io.waiting[k];
      SumAt(s.io.waiting, k, CountedTask);
    }
  }

  lemma NothingLeftIff(s: State)
    requires WritesInv(s) && s.pendingFinalize == 0
    ensures NothingLeft(s) <==>
              s.activeJobs == map[] && !Between(s) && s.unwritten == {} && !RecoveryOutstanding(s.io, s.ioPc)
    ensures s.activeJobs == map[] ==> !SomeUnfinalized(s)
  {
    hide AllWritten, SomeUnfinalized, ActiveInv, NewestInv, JobInv, RequestInv, ReplyInv, RecordInv, WriteInv,
         FinalizeInv, IoInv, LogInv, FinalInv, RecoveredInv, RecoveryOutstanding;
    WrittenIff(s);
    SettledIff(s);
  }

  lemma SettledIff(s: State)
    requires Inv(s)
    ensures (forall j :: 0 <= j < |s.jobs| ==> Settled(s.jobs[j].stage)) <==>
            s.activeJobs == map[] && (forall j :: 0 <= j < |s.jobs| ==> !s.jobs[j].stage.Removed?)
    ensures s.activeJobs == map[] ==> !SomeUnfinalized(s)
    ensures Between(s) ==> exists j :: 0 <= j < |s.jobs| && s.jobs[j].stage.Removed?
  {
    hide NewestInv, JobInv, RequestInv, ReplyInv, RecordInv, WriteInv, FinalizeInv, IoInv, LogInv, PendingInv;
    if Between(s) {
      AtWindow(s);
    }
    hide ControlInv;
    ActiveIsLive(s.jobs, s.activeJobs);
  }

  lemma ActiveIsLive(jobs: seq<Job>, active: map<JobID, nat>)
    requires ActiveInv(jobs, active)
    ensures active == map[] || exists j :: 0 <= j < |jobs| && Live(jobs[j].stage)
  {
    if active != map[] {
      var id: JobID :| id in active;
      assert Live(jobs[active[id]].stage);
    }
  }

  // ----- when every submitter is done before Shutdown -----

  predicate NoCancelAll(c: Fifo<ControlTask>) { c.current != Some(CancelAll) && CancelAll !in c.waiting }

  predicate SubmitsWait(waiting: seq<ControlTask>) { exists k :: 0 <= k < |waiting| && waiting[k].Submit? }

  /** How far Shutdown has come tells where its control task is. */
  predicate Base(c: Fifo<ControlTask>, sh: Shut)
  {
    && (sh.pc.NotCalled? || sh.pc.MarkedClosed? ==> NoCancelAll(c) && !sh.cancelsDone)
    && (sh.pc.Polling? || sh.pc.Counting? || sh.pc.SawNoneActive? ==> sh.cancelsDone)
    && (!sh.closed ==> sh.pc.NotCalled?)
  }

  /** No call of SubmitJob can reach the control runner any more, and those that have
      are ahead of Shutdown's task; keys: the IDs in activeJobs. */
  predicate Sealed(c: Fifo<ControlTask>, sh: Shut, keys: set<JobID>)
  {
    && sh.closed && sh.submitting == multiset{}
    && (forall i, k :: 0 <= i < k < |c.waiting| && c.waiting[i].CancelAll? ==> !c.waiting[k].Submit?)
    && (c.current == Some(CancelAll) || sh.cancelsDone ==> !SubmitsWait(c.waiting))
    && (sh.cancelsDone ==> c.current.None? || !c.current.value.Submit?)
    && (sh.pc.Counting? && !sh.pc.seen ==> keys <= sh.pc.left)
    && (sh.pc.SawNoneActive? ==> keys == {})
  }

  /** Nothing, or one more task that neither submits nor is Shutdown's, is posted. */
  predicate Extends(c: Fifo<ControlTask>, d: Fifo<ControlTask>)
  {
    || d == c
    || (d.waiting != [] && (var t := d.waiting[|d.waiting| - 1]; (t.Cancel? || t.Finalize?) && d == Post(c, t)))
  }

  lemma ExtensionKeeps(c: Fifo<ControlTask>, d: Fifo<ControlTask>, sh: Shut, keys: set<JobID>, fewer: set<JobID>)
    requires Extends(c, d) && fewer <= keys
    ensures Base(c, sh) ==> Base(d, sh)
    ensures Sealed(c, sh, keys) ==> Sealed(d, sh, fewer)
  {
  }

  /** The events that concern neither Shutdown nor the control runner's queue. */
  predicate Mild(s: State, e: Event)
  {
    || IsExec(e) || (IsClient(e) && !e.SubmitCall? && !e.PostSubmit?)
    || e.IoStep? || e.CancelOne? || e.IoBegin? || e.IoEnd?
    || (e.ControlStep? && !s.controlPc.SubmitStore? && !s.controlPc.CancelEach?)
  }

  predicate Mildly(s: State, t: State)
  {
    t.shut == s.shut && Extends(s.control, t.control) && t.activeJobs.Keys <= s.activeJobs.Keys
  }

  lemma MildStep(s: State, e: Event)
    requires Enabled(s, e) && Mild(s, e)
    ensures Mildly(s, Apply(s, e))
  {
    hide SubmitNext, FinishNext, IoNext, ExecNext, ClientNext, Mildly, ExecEnabled, ClientEnabled, ControlEnabled,
         IoEnabled;
    if e.IoStep? {
      MildIo(s, e.outcome);
    } else if e.ControlStep? {
      MildControl(s, e.choice);
    } else if IsExec(e) {
      MildExec(s, e);
    } else if IsClient(e) {
      MildClient(s, e);
    } else {
      MildTurn(s, e);
    }
  }

  lemma MildExec(s: State, e: Event)
    requires IsExec(e) && ExecEnabled(s, e)
    ensures Mildly(s, ExecNext(s, e))
  {
  }

  lemma MildClient(s: State, e: Event)
    requires IsClient(e) && ClientEnabled(s, e) && !e.SubmitCall? && !e.PostSubmit?
    ensures Mildly(s, ClientNext(s, e))
  {
  }

  lemma MildTurn(s: State, e: Event)
    requires Enabled(s, e) && (e.IoBegin? || e.IoEnd? || e.CancelOne?)
    ensures Mildly(s, Apply(s, e))
  {
  }

  lemma MildIo(s: State, o: Outcome)
    requires IoEnabled(s, o)
    ensures Mildly(s, IoNext(s, o))
  {
    hide UpdateNext, DoneNext, PersistNext;
    if s.ioPc.FinalDone? {
      MildAnswer(s);
    } else if Updating(s.ioPc) {
      UpdateFrame(s, o);
    } else {
      MildPersist(s, o);
    }
  }

  lemma MildPersist(s: State, o: Outcome)
    requires IoEnabled(s, o) && !Updating(s.ioPc)
    ensures Mildly(s, PersistNext(s, o))
  {
    hide CheckNext, CreateNext, DecideNext, AnswerNext;
    if s.ioPc.Create? {
      CreateFrame(s, o);
    } else if s.ioPc.Schedule? || s.ioPc.Delete? {
      DecideFrame(s, o);
    } else if s.ioPc.CancelInfo? || s.ioPc.Reply? {
      MildAnswer(s);
    } else {
      CheckFrame(s, o);
    }
  }

  lemma MildAnswer(s: State)
    ensures s.ioPc.CancelInfo? || s.ioPc.Reply? ==> Mildly(s, AnswerNext(s))
    ensures s.ioPc.FinalDone? ==> Mildly(s, DoneNext(s))
  {
  }

  lemma MildControl(s: State, choice: bool)
    requires ControlEnabled(s, choice) && !s.controlPc.SubmitStore? && !s.controlPc.CancelEach?
    ensures Mildly(s, if Submitting(s.controlPc) then SubmitNext(s, choice) else FinishNext(s))
  {
    hide LookNext, CancelNext, RemoveNext, FinalPostNext, MarkNext;
    if s.controlPc.SubmitPost? {
    } else if Submitting(s.controlPc) {
      LookFrame(s, choice);
    } else {
      hide HandOverNext;
      MildFinish(s);
    }
  }

  lemma MildFinish(s: State)
    requires ControlEnabled(s, true) && !Submitting(s.controlPc) && !s.controlPc.CancelEach?
    ensures Mildly(s, FinishNext(s))
  {
    hide RemoveNext, FinalPostNext, MarkNext;
    if Cancelling(s.controlPc) {
    } else if s.controlPc.FinalLoad? {
      MildRemove(s);
    } else if s.controlPc.FinalPost? {
      MildFinalPost(s);
    } else {
      MildMark(s);
    }
  }

  lemma MildRemove(s: State)
    requires s.controlPc.FinalLoad? && ControlEnabled(s, true)
    ensures Mildly(s, RemoveNext(s))
  {
  }

  lemma MildFinalPost(s: State)
    requires s.controlPc.FinalPost? && s.controlPc.j < |s.jobs|
    ensures Mildly(s, FinalPostNext(s))
  {
  }

  lemma MildMark(s: State)
    requires s.controlPc.FinalCancel? || s.controlPc.FinalAdd?
    ensures Mildly(s, MarkNext(s))
  {
  }

  /** The events that are left. */
  predicate Bold(s: State, e: Event) { Enabled(s, e) && !Mild(s, e) }

  lemma BoldStep(s: State, e: Event)
    requires Bold(s, e) && ControlInv(s) && Base(s.control, s.shut)
    ensures var t := Apply(s, e); Base(t.control, t.shut)
    ensures var t := Apply(s, e);
            Sealed(s.control, s.shut, s.activeJobs.Keys) ==> Sealed(t.control, t.shut, t.activeJobs.Keys)
  {
    hide Base, Sealed, ControlInv, ControlEnabled, RunnerEnabled, ClientEnabled, ShutdownEnabled, ExecNext, ClientNext,
         ShutdownNext, RunnerNext, RecoverNext, IoNext, SubmitNext, FinishNext;
    if IsShutdown(e) {
      BoldShutdown(s, e);
    } else if IsRunner(e) {
      BoldTurn(s, e);
    } else {
      BoldRest(s, e);
    }
  }

  lemma BoldShutdown(s: State, e: Event)
    requires IsShutdown(e) && ShutdownEnabled(s, e) && Base(s.control, s.shut)
    ensures var t := ShutdownNext(s, e); Base(t.control, t.shut)
    ensures var t := ShutdownNext(s, e);
            Sealed(s.control, s.shut, s.activeJobs.Keys) ==> Sealed(t.control, t.shut, t.activeJobs.Keys)
  {
  }

  lemma BoldTurn(s: State, e: Event)
    requires (e.ControlBegin? || e.ControlEnd?) && RunnerEnabled(s, e) && Base(s.control, s.shut)
    ensures var t := RunnerNext(s, e); Base(t.control, t.shut)
    ensures var t := RunnerNext(s, e);
            Sealed(s.control, s.shut, s.activeJobs.Keys) ==> Sealed(t.control, t.shut, t.activeJobs.Keys)
  {
  }

  lemma BoldRest(s: State, e: Event)
    requires Bold(s, e) && !IsShutdown(e) && !IsRunner(e) && ControlInv(s) && Base(s.control, s.shut)
    ensures var t := Apply(s, e); Base(t.control, t.shut)
    ensures var t := Apply(s, e);
            Sealed(s.control, s.shut, s.activeJobs.Keys) ==> Sealed(t.control, t.shut, t.activeJobs.Keys)
  {
    hide Base, Sealed, ExecNext, IoNext, ShutdownNext, RunnerNext, ClientNext, RecoverNext, AdmitNext, CancelNext;
    if e.ControlStep? {
      CurrentIs(s);
      hide ControlInv;
      BoldControl(s);
    } else if e.RecoverJob? {
      BoldRecovery(s, e.id, e.found);
    } else {
      BoldClient(s, e);
    }
  }

  /** Admission, and the end of Shutdown's control task. */
  lemma BoldControl(s: State)
    requires Base(s.control, s.shut)
    requires s.controlPc.SubmitStore? ==> s.control.current == Some(Submit(s.controlPc.q))
    requires s.controlPc.CancelEach? ==> s.control.current == Some(CancelAll)
    ensures s.controlPc.SubmitStore? && s.controlPc.q < |s.requests| ==>
              var t := AdmitNext(s);
              && Base(t.control, t.shut)
              && (Sealed(s.control, s.shut, s.activeJobs.Keys) ==> Sealed(t.control, t.shut, t.activeJobs.Keys))
    ensures s.controlPc.CancelEach? ==>
              var t := CancelNext(s);
              && Base(t.control, t.shut)
              && (Sealed(s.control, s.shut, s.activeJobs.Keys) ==> Sealed(t.control, t.shut, t.activeJobs.Keys))
  {
  }

  lemma BoldRecovery(s: State, id: JobID, found: bool)
    requires RecoverEnabled(s, id) && Base(s.control, s.shut)
    ensures var t := RecoverNext(s, id, found); Base(t.control, t.shut) && !Sealed(s.control, s.shut, s.activeJobs.Keys)
  {
  }

  lemma BoldClient(s: State, e: Event)
    requires (e.SubmitCall? || e.PostSubmit?) && ClientEnabled(s, e) && Base(s.control, s.shut)
    ensures var t := ClientNext(s, e); Base(t.control, t.shut) && !Sealed(s.control, s.shut, s.activeJobs.Keys)
  {
  }

  lemma CurrentIs(s: State)
    requires ControlInv(s)
    ensures s.controlPc.SubmitStore? ==> s.control.current == Some(Submit(s.controlPc.q))
    ensures s.controlPc.CancelEach? ==> s.control.current == Some(CancelAll)
  {
  }

  /** The invariant, with what Shutdown adds to it, */
  ghost predicate ShutInv(s: State) { Inv(s) && Base(s.control, s.shut) }

  lemma ShutInvStep(s: State, e: Event)
    requires ShutInv(s) && Enabled(s, e)
    ensures ShutInv(Apply(s, e))
    ensures var t := Apply(s, e);
            Sealed(s.control, s.shut, s.activeJobs.Keys) ==> Sealed(t.control, t.shut, t.activeJobs.Keys)
  {
    hide Base, Sealed, Mild, Apply, Enabled, ActiveInv, NewestInv, JobInv, ControlInv, FinalizeInv, RequestInv, IoInv,
         LogInv, WriteInv, RecordInv, ReplyInv, PendingInv;
    var t := Apply(s, e);
    StepKeepsInv(s, e);
    if Mild(s, e) {
      MildStep(s, e);
      ExtensionKeeps(s.control, t.control, s.shut, s.activeJobs.Keys, t.activeJobs.Keys);
    } else {
      BoldStep(s, e);
    }
  }

  /** and once no submission can come any more. */
  ghost predicate SealedInv(s: State) { ShutInv(s) && Sealed(s.control, s.shut, s.activeJobs.Keys) }

  lemma ReachableShutInv(s: State)
    requires Reachable(s)
    ensures ShutInv(s)
  {
    hide ShutInv, Enabled, Apply;
    var durable, maxRetries, store :| Manager().Reaches(Init(durable, maxRetries, store), s);
    InitShutInv(durable, maxRetries, store);
    forall s, e | ShutInv(s) && Enabled(s, e) ensures ShutInv(Apply(s, e)) {
      ShutInvStep(s, e);
    }
    InvariantReached(Manager(), s => ShutInv(s), Init(durable, maxRetries, store), s);
  }

  lemma InitShutInv(durable: bool, maxRetries: int, store: map<JobID, Status>)
    ensures ShutInv(Init(durable, maxRetries, store))
  {
    hide Inv;
    InitInv(durable, maxRetries, store);
  }

  lemma ReachedSealed(s: State, t: State)
    requires SealedInv(s) && Manager().Reaches(s, t)
    ensures SealedInv(t)
  {
    hide ShutInv, Sealed, Enabled, Apply;
    forall s, e | SealedInv(s) && Enabled(s, e) ensures SealedInv(Apply(s, e)) {
      ShutInvStep(s, e);
    }
    InvariantReached(Manager(), s => SealedInv(s), s, t);
  }

  lemma SealedSeesNone(s: State)
    requires SealedInv(s) && s.shut.pc.SawNoneActive?
    ensures Inv(s) && s.activeJobs == map[]
  {
    hide Inv;
    assert s.activeJobs.Keys == {};
  }

  lemma ClosingSeals(s: State)
    requires ShutInv(s) && !s.shut.closed && s.shut.submitting == multiset{}
    ensures SealedInv(SetsClosed(s))
  {
    hide Inv;
    StepKeepsInv(s, CloseManager);
  }

  /** Once closed is set nothing is recovered any more. */
  lemma RecoveryStaysOver(s: State, e: Event)
    requires Enabled(s, e) && s.shut.closed && !RecoveryOutstanding(s.io, s.ioPc)
    ensures var t := Apply(s, e); !RecoveryOutstanding(t.io, t.ioPc)
  {
    hide ExecNext, ClientNext, ShutdownNext, IoNext, SubmitNext, FinishNext, CancelOneNext, ExecEnabled, ClientEnabled,
         ShutdownEnabled, IoEnabled, ControlEnabled;
    if Calm(e) {
      CalmStep(s, e);
      hide Apply;
    } else if e.IoStep? {
      hide RunnerNext;
      RecoveryTaskOver(s, e.outcome);
    }
  }

  lemma RecoveryTaskOver(s: State, o: Outcome)
    requires IoEnabled(s, o) && !RecoveryOutstanding(s.io, s.ioPc)
    ensures var t := IoNext(s, o); !RecoveryOutstanding(t.io, t.ioPc)
  {
    if s.ioPc.Final? {
      hide RecoveryOutstanding;
      RecoveryWriteOver(s, o);
    } else if !s.ioPc.FinalDone? {
      hide IoNext;
      QuietStep(s, o);
    }
  }

  lemma RecoveryWriteOver(s: State, o: Outcome)
    requires IoEnabled(s, o) && s.ioPc.Final? && !RecoveryOutstanding(s.io, s.ioPc)
    ensures var t := ConcludeNext(s, o); !RecoveryOutstanding(t.io, t.ioPc)
  {
    AttemptedFrame(s, s.ioPc.j, s.ioPc.status, o);
    hide Attempted;
  }

  lemma RecoveryReachedOver(s: State, t: State)
    requires SealedInv(s) && Manager().Reaches(s, t) && !RecoveryOutstanding(s.io, s.ioPc)
    ensures !RecoveryOutstanding(t.io, t.ioPc)
  {
    hide ShutInv, Enabled, Apply, RecoveryOutstanding;
    var inv := (s: State) => SealedInv(s) && !RecoveryOutstanding(s.io, s.ioPc);
    forall s, e | inv(s) && Enabled(s, e) ensures inv(Apply(s, e)) {
      RecoveryStaysOver(s, e);
      ShutInvStep(s, e);
    }
    InvariantReached(Manager(), inv, s, t);
  }

  /** Every call of SubmitJob that passed the closed check has posted before Shutdown
      sets the flag, at s; t is a later state in which Shutdown is about to return nil.
      Then nothing is left if and only if finalizeJobControl is not between
      LoadAndDelete and Add(1), no final write has ended without writing, and no recovered
      FAILED write is outstanding: which is so if none was at s. */
  lemma NilWithoutLateSubmitsIff(s: State, t: State)
    requires Reachable(s) && !s.shut.closed && s.shut.submitting == multiset{}
    requires Manager().Reaches(SetsClosed(s), t) && t.shut.pc.SawNoneActive? && t.pendingFinalize == 0
    ensures Answered(t).shut.pc.ReturnedNil? && t.activeJobs == map[]
    ensures NothingLeft(t) <==> !Between(t) && t.unwritten == {} && !RecoveryOutstanding(t.io, t.ioPc)
    ensures !RecoveryOutstanding(s.io, s.ioPc) ==> (NothingLeft(t) <==> !Between(t) && t.unwritten == {})
  {
    hide Reachable, NothingLeft, AllWritten, Between, SomeUnfinalized, RecoveryOutstanding, Apply, Enabled, ShutInv,
         WritesInv;
    AnsweredNil(t);
    ReachableShutInv(s);
    ClosingSeals(s);
    ReachedSealed(SetsClosed(s), t);
    SealedSeesNone(t);
    ReachedWrites(s, t);
    NothingLeftIff(t);
    if !RecoveryOutstanding(s.io, s.ioPc) {
      ClosingFrame(s);
      RecoveryReachedOver(SetsClosed(s), t);
    }
  }

  lemma ClosingFrame(s: State)
    requires !s.shut.closed
    ensures SetsClosed(s).io == s.io && SetsClosed(s).ioPc == s.ioPc
  {
  }

  lemma ReachedWrites(s: State, t: State)
    requires Reachable(s) && !s.shut.closed && Manager().Reaches(SetsClosed(s), t)
    ensures WritesInv(t)
  {
    hide WritesInv, Enabled, Apply, Init;
    assert Enabled(s, CloseManager) by { MayClose(s); }
    Next(s, CloseManager);
    var durable, maxRetries, store :| Manager().Reaches(Init(durable, maxRetries, store), SetsClosed(s));
    ReachesFurther(Manager(), Init(durable, maxRetries, store), SetsClosed(s), t);
    ReachableWrites(t);
  }

  lemma MayClose(s: State)
    requires !s.shut.closed
    ensures Enabled(s, CloseManager)
  {
  }
}
