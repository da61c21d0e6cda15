/** Runs in which JobManager.Shutdown returns nil although a terminal status is due: one
    for each condition of NilShutdownMeansAllWrittenIff. */
module JobManagerShutdownRuns {
  import opened Runs
  import opened FifoRunner
  import opened JobManagers
  import opened JobManagerInvariant
  import opened JobManagerShutdown

  // ----- steps -----

  ghost predicate After(a: State, s: State) { Manager().Reaches(a, s) }

  lemma Go(a: State, s: State, e: Event) returns (t: State)
    requires After(a, s) && Enabled(s, e)
    ensures After(a, t) && t == Apply(s, e)
  {
    hide Enabled, Apply;
    t := Apply(s, e);
    ReachesNext(Manager(), a, s, e);
  }

  lemma GoClient(a: State, s: State, e: Event) returns (t: State)
    requires After(a, s) && IsClient(e) && ClientEnabled(s, e)
    ensures After(a, t) && t == ClientNext(s, e)
  {
    hide After, Enabled, Apply;
    ClientApplies(s, e);
    t := Go(a, s, e);
  }

  lemma GoShutdown(a: State, s: State, e: Event) returns (t: State)
    requires After(a, s) && IsShutdown(e) && ShutdownEnabled(s, e)
    ensures After(a, t) && t == ShutdownNext(s, e)
  {
    hide After, Enabled, Apply;
    ShutdownApplies(s, e);
    t := Go(a, s, e);
  }

  lemma GoTurn(a: State, s: State, e: Event) returns (t: State)
    requires After(a, s) && IsRunner(e) && RunnerEnabled(s, e)
    ensures After(a, t) && t == RunnerNext(s, e)
  {
    hide After, Enabled, Apply;
    TurnApplies(s, e);
    t := Go(a, s, e);
  }

  lemma GoExec(a: State, s: State, e: Event) returns (t: State)
    requires After(a, s) && IsExec(e) && ExecEnabled(s, e)
    ensures After(a, t) && t == ExecNext(s, e)
  {
    hide After, Enabled, Apply;
    ExecApplies(s, e);
    t := Go(a, s, e);
  }

  lemma GoIo(a: State, s: State, o: Outcome) returns (t: State)
    requires After(a, s) && IoEnabled(s, o)
    ensures After(a, t) && t == IoNext(s, o)
  {
    hide After, Enabled, Apply;
    IoApplies(s, o);
    t := Go(a, s, IoStep(o));
  }

  lemma GoSubmit(a: State, s: State) returns (t: State)
    requires After(a, s) && Submitting(s.controlPc) && ControlEnabled(s, true)
    ensures After(a, t) && t == SubmitNext(s, true)
  {
    hide After, Enabled, Apply;
    SubmitApplies(s, true);
    t := Go(a, s, ControlStep(true));
  }

  lemma GoFinish(a: State, s: State) returns (t: State)
    requires After(a, s) && !Submitting(s.controlPc) && ControlEnabled(s, true)
    ensures After(a, t) && t == FinishNext(s)
  {
    hide After, Enabled, Apply;
    FinishApplies(s);
    t := Go(a, s, ControlStep(true));
  }

  lemma GoCancelOne(a: State, s: State, id: JobID) returns (t: State)
    requires After(a, s) && s.controlPc.CancelEach? && id in s.controlPc.left
    ensures After(a, t) && t == CancelOneNext(s, id)
  {
    hide After, Enabled, Apply;
    CancelOneApplies(s, id);
    t := Go(a, s, CancelOne(id));
  }

  /** A job store with CreateJob, one attempt each. */
  function Start(): State { Init(true, 0, map[]) }

  /** One SubmitJob is past its closed check. */
  function Called(f: seq<ControlTask>, sh: Shut): State
  {
    Start().(control := Fifo(f, None, []), shut := sh.(submitting := multiset{0}))
  }

  /** Its instance is admitted, its persist task posted. */
  function Handed(f: seq<ControlTask>, sh: Shut): State
  {
    Start().(control := Fifo(f, Some(Submit(0)), []), controlPc := SubmitAwait(0, 0),
             io := Fifo([], None, [Persist(0)]), shut := sh.(submitting := multiset{}), requests := [0],
             activeJobs := map[0 := 0], jobs := [Job(0, Some(0), Persisting, 0, 0)])
  }

  /** Its record is written and its handler runs. */
  function InHandler(f: seq<ControlTask>, sh: Shut): State
  {
    Handed(f, sh).(io := Fifo([], Some(Persist(0)), [SetRunning(0)]), ioPc := Reply(0, true),
                   store := map[0 := PENDING], writes := [Write(0, 0, PENDING)],
                   jobs := [Job(0, Some(0), Handling, 1, 1)])
  }

  lemma HandsOver(a: State, f: seq<ControlTask>, sh: Shut)
    requires After(a, Called(f, sh))
    ensures After(a, Handed(f, sh))
  {
    hide After;
    Checks(a, f, sh);
    var s1 := GoSubmit(a, PastChecks(f, sh));
    var s2 := GoSubmit(a, s1);
    assert s2 == Handed(f, sh);
  }

  /** Its control task has made its two checks. */
  function PastChecks(f: seq<ControlTask>, sh: Shut): State
  {
    Start().(control := Fifo(f, Some(Submit(0)), []), controlPc := SubmitStore(0),
             shut := sh.(submitting := multiset{}), requests := [0])
  }

  lemma Checks(a: State, f: seq<ControlTask>, sh: Shut)
    requires After(a, Called(f, sh))
    ensures After(a, PastChecks(f, sh))
  {
    hide After;
    var s1 := GoClient(a, Called(f, sh), PostSubmit(0));
    var s2 := GoTurn(a, s1, ControlBegin);
    var s3 := GoSubmit(a, s2);
    var s4 := GoSubmit(a, s3);
    assert s4 == PastChecks(f, sh);
  }

  lemma Executes(a: State, f: seq<ControlTask>, sh: Shut)
    requires After(a, Handed(f, sh))
    ensures After(a, InHandler(f, sh))
  {
    hide After;
    var s1 := GoTurn(a, Handed(f, sh), IoBegin);
    var s2 := GoIo(a, s1, Ok);
    var s3 := GoIo(a, s2, Ok);
    var s4 := GoIo(a, s3, Ok);
    var s5 := GoIo(a, s4, Ok);
    var s6 := GoExec(a, s5, ExecCheck(0));
    var s7 := GoExec(a, s6, ExecAnnounce(0));
    assert s7 == InHandler(f, sh);
  }

  lemma Stays(a: State)
    ensures After(a, a)
  {
    ReachesItself(Manager(), a);
  }

  lemma FromStart(s: State)
    requires After(Start(), s)
    ensures Reachable(s)
  {
  }

  // ----- Shutdown beside an idle control runner -----

  /** Its control task finds nothing to cancel. */
  lemma CancelsNobody(a: State, s: State)
    requires After(a, s) && s.shut.pc.MarkedClosed? && s.activeJobs == map[]
    requires s.control.Idle() && s.controlPc.NoControl?
    ensures After(a, s.(control := Fifo(s.control.finished + [CancelAll], None, []),
                        shut := s.shut.(cancelsDone := true, pc := Polling)))
  {
    hide After;
    var s1 := GoShutdown(a, s, PostCancelAll);
    var s2 := GoTurn(a, s1, ControlBegin);
    var s3 := GoFinish(a, s2);
    var s4 := GoFinish(a, s3);
    var s5 := GoTurn(a, s4, ControlEnd);
    var s6 := GoShutdown(a, s5, CancelsDone);
    assert s6 == s.(control := Fifo(s.control.finished + [CancelAll], None, []),
                    shut := s.shut.(cancelsDone := true, pc := Polling));
  }

  /** It counts no job, */
  lemma SeesNone(a: State, s: State)
    requires After(a, s) && s.shut.pc.Polling? && s.activeJobs == map[]
    ensures After(a, s.(shut := s.shut.(pc := SawNoneActive)))
  {
    hide After;
    var s1 := GoShutdown(a, s, BeginCount);
    var s2 := GoShutdown(a, s1, EndCount);
    assert s2 == s.(shut := s.shut.(pc := SawNoneActive));
  }

  /** and returns nil. */
  lemma ReturnsNil(a: State, s: State)
    requires After(a, s) && s.shut.pc.Polling? && s.activeJobs == map[] && s.pendingFinalize == 0
    ensures After(a, s.(shut := s.shut.(pc := ReturnedNil)))
  {
    hide After;
    SeesNone(a, s);
    var t := GoShutdown(a, s.(shut := s.shut.(pc := SawNoneActive)), LoadPending);
    assert t == s.(shut := s.shut.(pc := ReturnedNil));
  }

  // ----- a late submission -----

  lemma SeesNoneBeforeIt()
    ensures After(Start(), Called([CancelAll], Shut(true, multiset{0}, true, SawNoneActive)))
  {
    hide After;
    Stays(Start());
    var s1 := GoClient(Start(), Start(), SubmitCall(0));
    var s2 := GoShutdown(Start(), s1, CloseManager);
    assert s2 == Start().(shut := Shut(true, multiset{0}, false, MarkedClosed));
    CancelsNobody(Start(), s2);
    assert [] + [CancelAll] == [CancelAll];
    SeesNone(Start(), Called([CancelAll], Shut(true, multiset{0}, true, Polling)));
  }

  /** A SubmitJob that passed its closed check posts after the Range has seen no active
      job; its handler is over, its status unwritten, and Shutdown returns nil. */
  lemma NilBeforeALateJobIsWritten()
    ensures exists s :: Reachable(s) && s.shut.pc.ReturnedNil? && !AllWritten(s)
                        && s.jobs == [Job(0, Some(0), Reporting(COMPLETED), 1, 1)]
  {
    hide After, Reachable;
    var f, sh := [CancelAll], Shut(true, multiset{0}, true, SawNoneActive);
    SeesNoneBeforeIt();
    HandsOver(Start(), f, sh);
    Executes(Start(), f, sh);
    var s1 := GoExec(Start(), InHandler(f, sh), ExecHandle(0, COMPLETED));
    var s2 := GoShutdown(Start(), s1, LoadPending);
    FromStart(s2);
    assert !FinalWritten(s2, 0);
  }

  // ----- between LoadAndDelete and Add(1) -----

  /** A running job, its SubmitJob answered. */
  function Answering(): State
  {
    InHandler([], Shut(false, multiset{}, false, NotCalled)).(
      control := Fifo([Submit(0)], None, []), controlPc := NoControl, ioPc := IoOver, ioReply := map[0 := true],
      controlReply := map[0 := true])
  }

  lemma Calls()
    ensures After(Start(), Called([], Shut(false, multiset{}, false, NotCalled)))
  {
    hide After;
    Stays(Start());
    var s := GoClient(Start(), Start(), SubmitCall(0));
    assert s == Called([], Shut(false, multiset{}, false, NotCalled));
  }

  lemma Answers()
    ensures After(Start(), Answering())
  {
    hide After, Called;
    var sh := Shut(false, multiset{}, false, NotCalled);
    Calls();
    HandsOver(Start(), [], sh);
    Executes(Start(), [], sh);
    var s2 := GoIo(Start(), InHandler([], sh), Ok);
    var s3 := GoSubmit(Start(), s2);
    var s4 := GoTurn(Start(), s3, ControlEnd);
    assert s4 == Answering();
  }

  /** Shutdown has had it cancelled. */
  function AllCancelled(): State
  {
    Answering().(control := Fifo([Submit(0), CancelAll], None, []), cancelled := {0},
                 shut := Shut(true, multiset{}, true, Polling))
  }

  lemma Cancels()
    ensures After(SetsClosed(Answering()), AllCancelled())
  {
    hide After;
    var a := SetsClosed(Answering());
    Stays(a);
    var s1 := GoShutdown(a, a, PostCancelAll);
    var s2 := GoTurn(a, s1, ControlBegin);
    var s3 := GoFinish(a, s2);
    var s4 := GoCancelOne(a, s3, 0);
    var s5 := GoFinish(a, s4);
    var s6 := GoTurn(a, s5, ControlEnd);
    var s7 := GoShutdown(a, s6, CancelsDone);
    assert s7 == AllCancelled();
  }

  /** Its handler is over and finalizeJobControl has taken it out of activeJobs. */
  function Taken(): State
  {
    AllCancelled().(control := Fifo([Submit(0), CancelAll], Some(Finalize(0, COMPLETED)), []),
                    controlPc := FinalCancel(0, COMPLETED), activeJobs := map[],
                    jobs := [Job(0, Some(0), Removed(COMPLETED), 1, 1)])
  }

  lemma Takes(a: State)
    requires After(a, AllCancelled())
    ensures After(a, Taken())
  {
    hide After;
    var s1 := GoExec(a, AllCancelled(), ExecHandle(0, COMPLETED));
    var s2 := GoExec(a, s1, ExecReport(0));
    var s3 := GoTurn(a, s2, ControlBegin);
    var s4 := GoFinish(a, s3);
    assert s4 == Taken();
  }

  /** Every submission is over before Shutdown is called, and it returns nil while
      finalizeJobControl is between LoadAndDelete and Add(1): the status of the finished
      job is yet to be written. */
  lemma NilBetweenRemovalAndAdd()
    ensures exists s, t :: Reachable(s) && !s.shut.closed && s.shut.submitting == multiset{}
                           && Manager().Reaches(SetsClosed(s), t) && t.shut.pc.ReturnedNil? && !AllWritten(t)
                           && t.jobs == [Job(0, Some(0), Removed(COMPLETED), 1, 1)]
  {
    hide Reachable;
    var s, t := Answering(), Taken().(shut := Shut(true, multiset{}, true, ReturnedNil));
    assert Reachable(s) && After(SetsClosed(s), t) by {
      hide After, Answering, AllCancelled, Taken, SetsClosed;
      Answers();
      FromStart(s);
      Cancels();
      Takes(SetsClosed(s));
      ReturnsNil(SetsClosed(s), Taken());
    }
    assert !FinalWritten(t, 0);
  }

  // ----- a final write that fails -----

  /** The final write of that job is with the io runner, and Shutdown polls. */
  function Posted(): State
  {
    Taken().(control := Fifo([Submit(0), CancelAll, Finalize(0, COMPLETED)], None, []), controlPc := NoControl,
             io := Fifo([], Some(Persist(0)), [SetRunning(0), SetFinal(0, COMPLETED, true)]), pendingFinalize := 1,
             jobs := [Job(0, Some(0), Closed(COMPLETED), 1, 1)])
  }

  lemma PostsFinal(a: State)
    requires After(a, Taken())
    ensures After(a, Posted())
  {
    hide After;
    var s1 := GoFinish(a, Taken());
    var s2 := GoFinish(a, s1);
    var s3 := GoFinish(a, s2);
    var s4 := GoTurn(a, s3, ControlEnd);
    assert s4 == Posted();
  }

  /** The RUNNING update has failed, */
  function Unannounced(): State
  {
    Posted().(io := Fifo([Persist(0), SetRunning(0)], None, [SetFinal(0, COMPLETED, true)]), ioPc := NoIo)
  }

  lemma FailsToAnnounce(a: State)
    requires After(a, Posted())
    ensures After(a, Unannounced())
  {
    hide After;
    var s1 := GoTurn(a, Posted(), IoEnd);
    var s2 := GoTurn(a, s1, IoBegin);
    var s3 := GoIo(a, s2, Error(false));
    var s4 := GoTurn(a, s3, IoEnd);
    assert s4 == Unannounced();
  }

  /** and so has the final one. */
  function Lost(): State
  {
    Unannounced().(io := Fifo([Persist(0), SetRunning(0), SetFinal(0, COMPLETED, true)], None, []),
                   pendingFinalize := 0, unwritten := {0})
  }

  lemma FailsToConclude(a: State)
    requires After(a, Unannounced())
    ensures After(a, Lost())
  {
    hide After;
    Attempts(a);
    var s1 := GoIo(a, Failed(), Ok);
    var s2 := GoTurn(a, s1, IoEnd);
    assert s2 == Lost();
  }

  /** Its one attempt is over, pendingFinalize still counts it. */
  function Failed(): State
  {
    Unannounced().(io := Fifo([Persist(0), SetRunning(0)], Some(SetFinal(0, COMPLETED, true)), []),
                   ioPc := FinalDone(true), unwritten := {0})
  }

  lemma Attempts(a: State)
    requires After(a, Unannounced())
    ensures After(a, Failed())
  {
    hide After;
    var s1 := GoTurn(a, Unannounced(), IoBegin);
    var s2 := GoIo(a, s1, Error(false));
    assert s2 == Failed();
  }

  /** Every submission is over, nothing is recovered, both runners are idle and no job is
      left when Shutdown returns nil; but UpdateStatus has failed and its error was
      dropped, so the store shows the completed job as PENDING. */
  lemma NilAfterAFailedWrite()
    ensures exists s, t :: Reachable(s) && !s.shut.closed && s.shut.submitting == multiset{}
                           && !RecoveryOutstanding(s.io, s.ioPc)
                           && Manager().Reaches(SetsClosed(s), t) && t.shut.pc.ReturnedNil? && !AllWritten(t)
                           && t.control.Idle() && t.io.Idle() && t.jobs == [Job(0, Some(0), Closed(COMPLETED), 1, 1)]
                           && t.store == map[0 := PENDING]
  {
    hide Reachable, Answering, Lost, SetsClosed, AllWritten, RecoveryOutstanding;
    RunFails();
    AnsweringIsOpen();
    FailedIsLost(Lost().(shut := Shut(true, multiset{}, true, ReturnedNil)));
  }

  lemma RunFails()
    ensures Reachable(Answering())
    ensures Manager().Reaches(SetsClosed(Answering()), Lost().(shut := Shut(true, multiset{}, true, ReturnedNil)))
  {
    var s, t := Answering(), Lost().(shut := Shut(true, multiset{}, true, ReturnedNil));
    assert Reachable(s) && After(SetsClosed(s), t) by {
      hide After, Reachable, Answering, AllCancelled, Taken, Posted, Unannounced, SetsClosed;
      Answers();
      FromStart(s);
      Cancels();
      Takes(SetsClosed(s));
      PostsFinal(SetsClosed(s));
      FailsToAnnounce(SetsClosed(s));
      FailsToConclude(SetsClosed(s));
      LostIsQuiet();
      ReturnsNil(SetsClosed(s), Lost());
    }
  }

  lemma AnsweringIsOpen()
    ensures var s := Answering();
            !s.shut.closed && s.shut.submitting == multiset{} && !RecoveryOutstanding(s.io, s.ioPc)
  {
  }

  lemma FailedIsLost(t: State)
    requires t == Lost().(shut := Shut(true, multiset{}, true, ReturnedNil))
    ensures t.shut.pc.ReturnedNil? && !AllWritten(t) && t.control.Idle() && t.io.Idle()
    ensures t.jobs == [Job(0, Some(0), Closed(COMPLETED), 1, 1)] && t.store == map[0 := PENDING]
  {
    assert !FinalWritten(t, 0);
  }

  lemma LostIsQuiet()
    ensures Lost().shut == Shut(true, multiset{}, true, Polling) && Lost().activeJobs == map[]
            && Lost().pendingFinalize == 0
  {
  }

  // ----- a recovered write -----

  /** One PENDING record, and no handler for it. */
  function Stored(): State { Init(true, 0, map[0 := PENDING]) }

  function Recovered(): State
  {
    Stored().(jobs := [Job(0, None, Unrunnable, 0, 0)], io := Fifo([], None, [SetFinal(0, FAILED, false)]))
  }

  lemma Recovers()
    ensures Reachable(Recovered())
  {
    hide Reachable;
    Stays(Stored());
    var s := Go(Stored(), Stored(), RecoverJob(0, false));
    assert s == Recovered();
    assert Reachable(s) by { FromStored(s); }
  }

  lemma FromStored(s: State)
    requires After(Stored(), s)
    ensures Reachable(s)
  {
  }

  /** No submission and no job at all: Shutdown returns nil while the FAILED write of a
      job recovered without a handler still waits, uncounted, with the io runner. */
  lemma NilBeforeARecoveredWrite()
    ensures exists s, t :: Reachable(s) && !s.shut.closed && s.shut.submitting == multiset{}
                           && Manager().Reaches(SetsClosed(s), t) && t.shut.pc.ReturnedNil? && !AllWritten(t)
                           && t.jobs == [Job(0, None, Unrunnable, 0, 0)] && t.activeJobs == map[]
                           && t.io.waiting == [SetFinal(0, FAILED, false)] && t.store == map[0 := PENDING]
  {
    hide Reachable;
    var s := Recovered();
    var a := SetsClosed(s);
    var t := a.(control := Fifo([CancelAll], None, []), shut := Shut(true, multiset{}, true, ReturnedNil));
    Recovers();
    assert After(a, t) by {
      hide After;
      Stays(a);
      CancelsNobody(a, a);
      assert [] + [CancelAll] == [CancelAll];
      ReturnsNil(a, a.(control := Fifo([CancelAll], None, []), shut := Shut(true, multiset{}, true, Polling)));
    }
    assert !FinalWritten(t, 0);
  }
}
