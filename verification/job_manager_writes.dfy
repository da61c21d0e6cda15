/** Which final writes have reached the store: along every run of the JobManager, what
    the attempts of the io runner have left behind. */
module JobManagerWrites {
  import opened Runs
  import opened FifoRunner
  import opened JobManagers
  import opened JobManagerInvariant

  // ----- the invariant -----

  /** The io task at position p of the log has written. */
  ghost predicate WrittenAt(writes: seq<Write>, p: nat) { exists i :: 0 <= i < |writes| && writes[i].pos == p }

  predicate AttemptsOver(pc: IoPc) { pc.FinalDone? || pc.IoOver? }

  /** Position p holds the final write of instance j, and its attempts are over. */
  predicate Ended(io: Fifo<IoTask>, pc: IoPc, p: nat, j: nat)
  {
    || (p < |io.finished| && io.finished[p].SetFinal? && io.finished[p].job == j)
    || (p == |io.finished| && AttemptsOver(pc)
        && io.current.Some? && io.current.value.SetFinal? && io.current.value.job == j)
  }

  /** unwritten holds the instances whose final write ended without writing; wrote tells
      whether an attempt of the current one has written. */
  ghost predicate FinalInv(io: Fifo<IoTask>, pc: IoPc, writes: seq<Write>, unwritten: set<nat>)
  {
    && (forall p: nat, j: nat :: Ended(io, pc, p, j) ==> (WrittenAt(writes, p) <==> j !in unwritten))
    && (pc.Final? ==> (pc.wrote <==> WrittenAt(writes, |io.finished|)))
    && (forall j: nat :: j in unwritten ==> exists p: nat :: Ended(io, pc, p, j))
  }

  /** A job recovered without a handler has its FAILED write with the io runner. */
  ghost predicate RecoveredInv(jobs: seq<Job>, log: seq<IoTask>)
  {
    forall j :: 0 <= j < |jobs| && jobs[j].stage.Unrunnable? ==> SetFinal(j, FAILED, false) in log
  }

  ghost predicate WritesInv(s: State)
  {
    Inv(s) && FinalInv(s.io, s.ioPc, s.writes, s.unwritten) && RecoveredInv(s.jobs, s.io.Log())
  }

  /** Each instance has one final write at most. */
  lemma FinalIsUnique(jobs: seq<Job>, log: seq<IoTask>, p: nat, r: nat)
    requires LogInv(jobs, log) && p < |log| && r < |log|
    requires log[p].SetFinal? && log[r].SetFinal? && log[p].job == log[r].job
    ensures p == r
  {
  }

  // ----- steps that leave the io runner's current task alone -----

  predicate Calm(e: Event)
  {
    || IsExec(e) || IsClient(e) || IsShutdown(e) || e.ControlBegin? || e.ControlEnd? || e.ControlStep? || e.CancelOne?
  }

  /** Nothing, or one task more, is with the io runner; a final write is a counted one. */
  predicate IoExtends(io: Fifo<IoTask>, io': Fifo<IoTask>)
  {
    || io' == io
    || (io'.waiting != []
        && (var t := io'.waiting[|io'.waiting| - 1]; (t.SetFinal? ==> t.counted) && io' == Post(io, t)))
  }

  predicate NoneRecovered(jobs: seq<Job>, jobs': seq<Job>)
  {
    forall j :: 0 <= j < |jobs'| && jobs'[j].stage.Unrunnable? ==> j < |jobs| && jobs[j].stage.Unrunnable?
  }

  predicate Calmly(s: State, t: State)
  {
    && IoExtends(s.io, t.io) && t.ioPc == s.ioPc && t.writes == s.writes && t.unwritten == s.unwritten
    && NoneRecovered(s.jobs, t.jobs)
  }

  lemma CalmStep(s: State, e: Event)
    requires Enabled(s, e) && Calm(e)
    ensures Calmly(s, Apply(s, e))
  {
    hide ExecNext, ClientNext, ShutdownNext, RunnerNext, SubmitNext, FinishNext, CancelOneNext, Calmly, ExecEnabled,
         ClientEnabled, ShutdownEnabled, RunnerEnabled, ControlEnabled;
    if IsExec(e) { CalmExec(s, e); }
    else if IsClient(e) { CalmClient(s, e); }
    else if IsShutdown(e) { CalmShutdown(s, e); }
    else if IsRunner(e) { CalmTurn(s, e); }
    else if e.CancelOne? { CalmCancelOne(s, e.id); }
    else { CalmControl(s, e.choice); }
  }

  lemma CalmExec(s: State, e: Event)
    requires IsExec(e) && ExecEnabled(s, e)
    ensures Calmly(s, ExecNext(s, e))
  {
  }

  lemma CalmClient(s: State, e: Event)
    requires IsClient(e) && ClientEnabled(s, e)
    ensures Calmly(s, ClientNext(s, e))
  {
  }

  lemma CalmShutdown(s: State, e: Event)
    requires IsShutdown(e) && ShutdownEnabled(s, e)
    ensures Calmly(s, ShutdownNext(s, e))
  {
  }

  lemma CalmTurn(s: State, e: Event)
    requires (e.ControlBegin? || e.ControlEnd?) && RunnerEnabled(s, e)
    ensures Calmly(s, RunnerNext(s, e))
  {
  }

  lemma CalmCancelOne(s: State, id: JobID)
    requires s.controlPc.CancelEach?
    ensures Calmly(s, CancelOneNext(s, id))
  {
  }

  lemma CalmControl(s: State, choice: bool)
    requires ControlEnabled(s, choice)
    ensures Submitting(s.controlPc) ==> Calmly(s, SubmitNext(s, choice))
    ensures !Submitting(s.controlPc) ==> Calmly(s, FinishNext(s))
  {
    hide LookNext, AdmitNext, HandOverNext, CancelNext, RemoveNext, FinalPostNext, MarkNext;
    if s.controlPc.SubmitStore? || s.controlPc.SubmitPost? {
      CalmAdmission(s);
    } else if Submitting(s.controlPc) {
      LookFrame(s, choice);
    } else if Cancelling(s.controlPc) {
      CancelFrame(s);
    } else if s.controlPc.FinalLoad? {
      CalmRemove(s);
    } else if s.controlPc.FinalPost? {
      CalmFinalPost(s);
    } else {
      CalmMark(s);
    }
  }

  lemma CalmAdmission(s: State)
    ensures s.controlPc.SubmitStore? && s.controlPc.q < |s.requests| ==> Calmly(s, AdmitNext(s))
    ensures s.controlPc.SubmitPost? && s.controlPc.j < |s.jobs| ==> Calmly(s, HandOverNext(s))
  {
  }

  lemma CalmRemove(s: State)
    requires s.controlPc.FinalLoad? && ControlEnabled(s, true)
    ensures Calmly(s, RemoveNext(s))
  {
  }

  lemma CalmFinalPost(s: State)
    requires s.controlPc.FinalPost? && s.controlPc.j < |s.jobs|
    ensures Calmly(s, FinalPostNext(s))
  {
  }

  lemma CalmMark(s: State)
    requires s.controlPc.FinalCancel? || s.controlPc.FinalAdd?
    ensures Calmly(s, MarkNext(s))
  {
  }

  lemma CalmKeepsWrites(s: State, t: State)
    requires Calmly(s, t) && FinalInv(s.io, s.ioPc, s.writes, s.unwritten) && RecoveredInv(s.jobs, s.io.Log())
    ensures FinalInv(t.io, t.ioPc, t.writes, t.unwritten) && RecoveredInv(t.jobs, t.io.Log())
  {
    assert forall p: nat, j: nat :: Ended(t.io, t.ioPc, p, j) == Ended(s.io, s.ioPc, p, j);
    assert RecoveredInv(t.jobs, t.io.Log()) by { hide FinalInv; LogOnlyGrows(s.io); }
  }

  // ----- the io runner -----

  /** A step of a task that is no final write. */
  predicate Quietly(s: State, t: State)
  {
    && t.io == s.io && t.unwritten == s.unwritten && !s.ioPc.Final? && !t.ioPc.Final?
    && |s.writes| <= |t.writes| <= |s.writes| + 1 && s.writes == t.writes[..|s.writes|]
    && (|t.writes| > |s.writes| ==> t.writes[|s.writes|].pos == |s.io.finished|)
    && NoneRecovered(s.jobs, t.jobs)
  }

  lemma QuietKeepsWrites(s: State, t: State)
    requires Quietly(s, t) && s.io.current.Some? && !s.io.current.value.SetFinal?
    requires FinalInv(s.io, s.ioPc, s.writes, s.unwritten) && RecoveredInv(s.jobs, s.io.Log())
    ensures FinalInv(t.io, t.ioPc, t.writes, t.unwritten) && RecoveredInv(t.jobs, t.io.Log())
  {
    WritesKept(s.writes, t.writes, |s.io.finished|);
    assert forall p: nat, j: nat :: Ended(t.io, t.ioPc, p, j) == Ended(s.io, s.ioPc, p, j);
  }

  /** A write at position n leaves the other positions alone. */
  lemma WritesKept(writes: seq<Write>, more: seq<Write>, n: nat)
    requires |writes| <= |more| <= |writes| + 1 && writes == more[..|writes|]
    requires |more| > |writes| ==> more[|writes|].pos == n
    ensures forall p: nat :: p != n ==> (WrittenAt(more, p) <==> WrittenAt(writes, p))
    ensures WrittenAt(more, n) <==> |more| > |writes| || WrittenAt(writes, n)
  {
    forall p: nat | WrittenAt(writes, p) ensures WrittenAt(more, p) {
      var i: nat :| i < |writes| && writes[i].pos == p;
      assert more[i].pos == p;
    }
    if |more| > |writes| {
      assert more[|writes|].pos == n;
    }
  }

  lemma QuietStep(s: State, o: Outcome)
    requires IoEnabled(s, o) && !s.ioPc.Final? && !s.ioPc.FinalDone?
    ensures Quietly(s, IoNext(s, o))
  {
    hide CheckNext, CreateNext, DecideNext, AnswerNext, AnnounceNext, ConcludeNext;
    if s.ioPc.Running? {
      AnnounceFrame(s, o);
      QuietAttempt(s, s.ioPc.j, RUNNING, o);
    } else if s.ioPc.Create? {
      QuietCreate(s, o);
    } else if s.ioPc.Schedule? || s.ioPc.Delete? {
      DecideFrame(s, o);
    } else if s.ioPc.CancelInfo? || s.ioPc.Reply? {
      QuietAnswer(s);
    } else {
      CheckFrame(s, o);
    }
  }

  lemma QuietAttempt(s: State, j: nat, status: Status, o: Outcome)
    requires j < |s.jobs|
    ensures var u := Attempted(s, j, status, o);
            && u.(store := s.store, writes := s.writes) == s
            && u.writes == if Wrote(o) then s.writes + [Write(|s.io.finished|, j, status)] else s.writes
  {
  }

  lemma QuietCreate(s: State, o: Outcome)
    requires IoEnabled(s, o) && s.ioPc.Create?
    ensures Quietly(s, CreateNext(s, o))
  {
    QuietAttempt(s, s.ioPc.j, PENDING, o);
    hide Attempted;
  }

  lemma QuietAnswer(s: State)
    requires s.ioPc.CancelInfo? || s.ioPc.Reply?
    ensures Quietly(s, AnswerNext(s))
  {
  }

  /** The task at hand is no final write in these steps, */
  lemma NoFinalAtHand(s: State)
    requires IoInv(s.jobs, s.io, s.ioPc, s.ioReply) && !s.ioPc.NoIo? && !s.ioPc.IoOver?
    ensures s.io.current.Some? && (s.io.current.value.SetFinal? <==> s.ioPc.Final? || s.ioPc.FinalDone?)
  {
  }

  lemma DoneKeepsWrites(s: State)
    requires s.ioPc.FinalDone? && FinalInv(s.io, s.ioPc, s.writes, s.unwritten)
    ensures var t := DoneNext(s); FinalInv(t.io, t.ioPc, t.writes, t.unwritten)
  {
    var t := DoneNext(s);
    assert forall p: nat, j: nat :: Ended(t.io, t.ioPc, p, j) == Ended(s.io, s.ioPc, p, j);
  }

  /** and here it is. */
  lemma ConcludeKeepsWrites(s: State, o: Outcome)
    requires IoEnabled(s, o) && s.ioPc.Final? && FinalInv(s.io, s.ioPc, s.writes, s.unwritten)
    requires s.io.current == Some(SetFinal(s.ioPc.j, s.ioPc.status, s.ioPc.counted))
    requires forall p: nat :: !Ended(s.io, s.ioPc, p, s.ioPc.j)
    ensures var t := ConcludeNext(s, o); FinalInv(t.io, t.ioPc, t.writes, t.unwritten)
  {
    var t, n := ConcludeNext(s, o), |s.io.finished|;
    QuietAttempt(s, s.ioPc.j, s.ioPc.status, o);
    hide Attempted, IoEnabled;
    WritesKept(s.writes, t.writes, n);
    assert forall p: nat, j: nat :: Ended(t.io, t.ioPc, p, j) <==>
             Ended(s.io, s.ioPc, p, j) || (t.ioPc.FinalDone? && p == n && j == s.ioPc.j);
    assert s.ioPc.j !in s.unwritten;
    forall j: nat | j in t.unwritten ensures exists p: nat :: Ended(t.io, t.ioPc, p, j) {
      if j in s.unwritten {
        var p: nat :| Ended(s.io, s.ioPc, p, j);
        assert Ended(t.io, t.ioPc, p, j);
      } else {
        assert Ended(t.io, t.ioPc, n, j);
      }
    }
  }

  lemma NotYetEnded(s: State)
    requires LogInv(s.jobs, s.io.Log()) && IoInv(s.jobs, s.io, s.ioPc, s.ioReply) && s.ioPc.Final?
    ensures s.io.current == Some(SetFinal(s.ioPc.j, s.ioPc.status, s.ioPc.counted))
    ensures forall p: nat :: !Ended(s.io, s.ioPc, p, s.ioPc.j)
  {
    var log, n := s.io.Log(), |s.io.finished|;
    assert log[n] == s.io.current.value;
    forall p: nat ensures !Ended(s.io, s.ioPc, p, s.ioPc.j) {
      if p < n && s.io.finished[p].SetFinal? && s.io.finished[p].job == s.ioPc.j {
        assert log[p] == s.io.finished[p];
        FinalIsUnique(s.jobs, log, p, n);
      }
    }
  }

  lemma IoKeepsWrites(s: State, o: Outcome)
    requires WritesInv(s) && IoEnabled(s, o)
    ensures var t := IoNext(s, o);
            FinalInv(t.io, t.ioPc, t.writes, t.unwritten) && RecoveredInv(t.jobs, t.io.Log())
  {
    hide ActiveInv, NewestInv, JobInv, ControlInv, FinalizeInv, RequestInv, IoInv, LogInv, WriteInv, RecordInv,
         ReplyInv, PendingInv, FinalInv, AnnounceNext, ConcludeNext, DoneNext, PersistNext;
    NoFinalAtHand(s);
    if s.ioPc.FinalDone? {
      DoneKeepsWrites(s);
      DoneKeepsRecovered(s);
    } else if s.ioPc.Final? {
      NotYetEnded(s);
      ConcludeKeepsWrites(s, o);
      ConcludeFrame(s, o);
      QuietAttempt(s, s.ioPc.j, s.ioPc.status, o);
    } else {
      hide IoNext;
      QuietStep(s, o);
      QuietKeepsWrites(s, IoNext(s, o));
    }
  }

  lemma DoneKeepsRecovered(s: State)
    requires s.ioPc.FinalDone?
    ensures DoneNext(s).jobs == s.jobs && DoneNext(s).io == s.io
  {
  }

  lemma BeginKeepsWrites(s: State)
    requires s.ioPc.NoIo? && CanBegin(s.io) && FinalInv(s.io, s.ioPc, s.writes, s.unwritten)
    requires WriteInv(s.jobs, s.io.Log(), Begun(s), s.writes, s.store)
    ensures var t := RunnerNext(s, IoBegin); FinalInv(t.io, t.ioPc, t.writes, t.unwritten)
  {
    var t := RunnerNext(s, IoBegin);
    assert !WrittenAt(s.writes, |s.io.finished|);
    hide WriteInv;
    assert forall p: nat, j: nat :: Ended(t.io, t.ioPc, p, j) == Ended(s.io, s.ioPc, p, j);
  }

  lemma EndKeepsWrites(s: State)
    requires s.ioPc.IoOver? && s.io.current.Some? && FinalInv(s.io, s.ioPc, s.writes, s.unwritten)
    ensures var t := RunnerNext(s, IoEnd); FinalInv(t.io, t.ioPc, t.writes, t.unwritten)
  {
    var t := RunnerNext(s, IoEnd);
    assert forall p: nat, j: nat :: Ended(t.io, t.ioPc, p, j) == Ended(s.io, s.ioPc, p, j);
  }

  // ----- every step -----

  lemma RecoverKeepsWrites(s: State, id: JobID, found: bool)
    requires FinalInv(s.io, s.ioPc, s.writes, s.unwritten) && RecoveredInv(s.jobs, s.io.Log())
    ensures var t := RecoverNext(s, id, found);
            FinalInv(t.io, t.ioPc, t.writes, t.unwritten) && RecoveredInv(t.jobs, t.io.Log())
  {
    var t := RecoverNext(s, id, found);
    LogOnlyGrows(s.io);
    assert forall p: nat, j: nat :: Ended(t.io, t.ioPc, p, j) == Ended(s.io, s.ioPc, p, j);
  }

  lemma StepKeepsWrites(s: State, e: Event)
    requires WritesInv(s) && Enabled(s, e)
    ensures WritesInv(Apply(s, e))
  {
    hide Inv, FinalInv, RecoveredInv, ExecNext, ClientNext, ShutdownNext, RecoverNext, IoNext, SubmitNext, FinishNext,
         CancelOneNext, RunnerNext;
    StepKeepsInv(s, e);
    if Calm(e) {
      CalmStep(s, e);
      CalmKeepsWrites(s, Apply(s, e));
    } else if e.IoStep? {
      IoKeepsWrites(s, e.outcome);
    } else if e.RecoverJob? {
      RecoverKeepsWrites(s, e.id, e.found);
    } else {
      TurnKeepsWrites(s, e);
    }
  }

  lemma TurnKeepsWrites(s: State, e: Event)
    requires (e.IoBegin? || e.IoEnd?) && RunnerEnabled(s, e) && WritesInv(s)
    ensures var t := RunnerNext(s, e);
            FinalInv(t.io, t.ioPc, t.writes, t.unwritten) && RecoveredInv(t.jobs, t.io.Log())
  {
    hide ActiveInv, NewestInv, JobInv, ControlInv, FinalizeInv, RequestInv, IoInv, LogInv, WriteInv, RecordInv,
         ReplyInv, PendingInv, FinalInv;
    LogOnlyGrows(s.io);
    if e.IoBegin? {
      BeginKeepsWrites(s);
    } else {
      EndKeepsWrites(s);
    }
  }

  lemma InitWrites(durable: bool, maxRetries: int, store: map<JobID, Status>)
    ensures WritesInv(Init(durable, maxRetries, store))
  {
    hide Inv;
    InitInv(durable, maxRetries, store);
  }

  lemma ReachableWrites(s: State)
    requires Reachable(s)
    ensures WritesInv(s)
  {
    hide WritesInv, Enabled, Apply, Init;
    var durable, maxRetries, store :| Manager().Reaches(Init(durable, maxRetries, store), s);
    InitWrites(durable, maxRetries, store);
    forall s, e | WritesInv(s) && Enabled(s, e) ensures WritesInv(Apply(s, e)) {
      StepKeepsWrites(s, e);
    }
    InvariantReached(Manager(), s => WritesInv(s), Init(durable, maxRetries, store), s);
  }
}
