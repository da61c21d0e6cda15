/** What a caller of the SingleThreadTaskRunner may rely on
    (core/single_thread_task_runner.go): which calls get their task run, which policy a
    call meets, and what Shutdown and the end of the context do. */
module SingleThreadCalls {
  import opened Counting
  import opened Runs
  import opened FifoRunner
  import opened SingleThreadRunner

  /** t is the state after event e at s. */
  ghost predicate Took<T>(s: State<T>, e: Event<T>, t: State<T>) { Enabled(s, e) && t == Apply(s, e) }

  /** The sends are those of the accepted calls in order, each its own task, once. */
  ghost predicate Listed<T>(s: State<T>)
  {
    && |s.called| == |s.posts| && |s.order| == |s.sent|
    && (forall k :: 0 <= k < |s.order| ==> s.order[k] < |s.called| && s.sent[k] == s.called[s.order[k]])
    && (forall j, k :: 0 <= j < k < |s.order| ==> s.order[j] != s.order[k])
  }

  ghost predicate Placed<T>(s: State<T>)
  {
    && |s.called| == |s.posts|
    && (forall p :: 0 <= p < |s.posts| ==> (p in s.order <==> s.posts[p].Accepted?))
    && (forall p :: 0 <= p < |s.posts| && (s.posts[p].Entering? || s.posts[p].Reading? || s.posts[p].Sending?) ==>
          s.posts[p].task == s.called[p])
  }

  ghost predicate Ledger<T>(s: State<T>) { Listed(s) && Placed(s) }

  lemma CallKeepsLedger<T>(s: State<T>, task: T)
    requires Ledger(s) && Enabled(s, Call(task))
    ensures Ledger(Apply(s, Call(task)))
  {
    assert |s.posts| !in s.order;
  }

  lemma SendKeepsLedger<T>(s: State<T>, p: nat)
    requires Ledger(s) && Enabled(s, Send(p))
    ensures Ledger(Apply(s, Send(p)))
  {
    var t := Apply(s, Send(p));
    assert s.posts[p].task == s.called[p] && p !in s.order;
    forall q | 0 <= q < |t.posts| ensures q in t.order <==> t.posts[q].Accepted? {
      assert q in t.order <==> q in s.order || q == p;
    }
  }

  lemma OtherKeepsLedger<T>(s: State<T>, e: Event<T>)
    requires Ledger(s) && Enabled(s, e) && !e.Call? && !e.Send?
    ensures Ledger(Apply(s, e))
  {
    if !PostEvent(e) {
      LoopLeavesCalls(s, e);
      hide Apply, Enabled;
    }
  }

  lemma LoopLeavesCalls<T>(s: State<T>, e: Event<T>)
    requires Enabled(s, e) && !PostEvent(e)
    ensures var t := Apply(s, e);
            && t.posts == s.posts && t.called == s.called && t.order == s.order && t.sent == s.sent
            && (s.closed ==> t.closed) && (s.stopped ==> t.stopped)
            && t.queuePolicy == (if e.SetPolicy? then e.policy else s.queuePolicy)
  {
  }

  lemma ReachableLedger<T(!new)>(s: State<T>)
    requires Reachable(s)
    ensures Ledger(s)
  {
    assert Ledger(Init<T>());
    hide Ledger, Enabled, Apply, Init;
    forall s: State<T>, e: Event<T> | Ledger(s) && Enabled(s, e) ensures Ledger(Apply(s, e)) {
      if e.Call? { CallKeepsLedger(s, e.task); }
      else if e.Send? { SendKeepsLedger(s, e.p); }
      else { OtherKeepsLedger(s, e); }
    }
    InvariantReached(Runner<T>(), s => Ledger(s), Init<T>(), s);
  }

  /** Calls are recorded as they are made, and only then. */
  lemma CalledIsTheCalls<T>(s: State<T>, e: Event<T>, t: State<T>)
    requires Took(s, e, t)
    ensures t.called == if e.Call? then s.called + [e.task] else s.called
  {
    if !PostEvent(e) { LoopLeavesCalls(s, e); }
  }

  /** What runs is the tasks of the accepted calls, each once, in the order of their
      sends; an open runner at rest has run every call's task but the rejected ones. */
  lemma AcceptedCallsRun<T(!new)>(s: State<T>)
    requires Reachable(s)
    ensures |s.posts| == |s.called| && |s.order| == |s.sent|
    ensures forall k :: 0 <= k < |s.order| ==> s.order[k] < |s.called| && s.sent[k] == s.called[s.order[k]]
    ensures forall j, k :: 0 <= j < k < |s.order| ==> s.order[j] != s.order[k]
    ensures forall p :: 0 <= p < |s.posts| ==> (s.posts[p].Accepted? <==> p in s.order)
    ensures !s.ctxDone && !s.closed && (forall e :: Internal(e) ==> !Enabled(s, e)) ==>
              s.executed == s.sent && forall p :: 0 <= p < |s.posts| ==> p in s.order || s.posts[p].Rejected?
  {
    ReachableLedger(s);
    if !s.ctxDone && !s.closed && forall e :: Internal(e) ==> !Enabled(s, e) {
      QuietRunnerIsDone(s);
      OnlyRejectTurnsAway(s);
    }
  }

  // ----- the policy a call meets -----

  /** Runs without a further call of SetQueuePolicy. */
  function SamePolicy<T(==,!new)>(): Machine<State<T>, Event<T>>
  {
    Machine((s: State<T>, e: Event<T>) => Enabled(s, e) && !e.SetPolicy?,
            (s: State<T>, e: Event<T>) requires Enabled(s, e) => Apply(s, e))
  }

  /** The call p has not read the policy, or has read this one. */
  predicate MeetsOnly<T>(pc: PostPc<T>, policy: QueuePolicy)
  {
    (pc.Sending? ==> pc.policy == policy) && (pc.Rejected? ==> policy.Reject?)
  }

  ghost predicate Meets<T>(s: State<T>, earlier: set<nat>, policy: QueuePolicy)
  {
    && s.queuePolicy == policy
    && forall p :: 0 <= p < |s.posts| && p !in earlier ==> MeetsOnly(s.posts[p], policy)
  }

  lemma StaysMeeting<T>(s: State<T>, e: Event<T>, earlier: set<nat>, policy: QueuePolicy)
    requires Meets(s, earlier, policy) && Enabled(s, e) && !e.SetPolicy?
    ensures Meets(Apply(s, e), earlier, policy)
  {
    if !PostEvent(e) {
      LoopLeavesCalls(s, e);
      hide Apply, Enabled;
    }
  }

  /** As long as the policy is not set again, a call that has not read it when it is set
      meets the policy set: it waits in the select with that policy, and is rejected
      only if it is Reject. */
  lemma PolicyHoldsForLaterCalls<T(!new)>(s: State<T>, policy: QueuePolicy, t: State<T>, u: State<T>, p: nat)
    requires Took(s, SetPolicy(policy), t) && SamePolicy<T>().Reaches(t, u) && p < |u.posts|
    requires p < |s.posts| ==> s.posts[p].Entering? || s.posts[p].Reading?
    ensures u.posts[p].Sending? ==> u.posts[p].policy == policy
    ensures u.posts[p].Rejected? ==> policy.Reject?
  {
    var earlier := set q: nat | q < |s.posts| && !s.posts[q].Entering? && !s.posts[q].Reading?;
    assert Meets(t, earlier, policy);
    hide Enabled, Apply, Meets;
    forall u: State<T>, e: Event<T> | Meets(u, earlier, policy) && SamePolicy<T>().Can(u, e)
      ensures Meets(SamePolicy<T>().next(u, e), earlier, policy)
    {
      StaysMeeting(u, e, earlier, policy);
    }
    InvariantReached(SamePolicy<T>(), u => Meets(u, earlier, policy), t, u);
    MeetsMeans(u, earlier, policy, p);
  }

  lemma MeetsMeans<T>(u: State<T>, earlier: set<nat>, policy: QueuePolicy, p: nat)
    requires Meets(u, earlier, policy) && p < |u.posts| && p !in earlier
    ensures MeetsOnly(u.posts[p], policy)
  {
  }

  // ----- closing -----

  /** Calls that have not seen the runner open come to nothing. */
  ghost predicate Shut<T>(s: State<T>, late: set<nat>)
  {
    && s.closed
    && forall p :: 0 <= p < |s.posts| && p !in late ==> s.posts[p].Entering? || s.posts[p].Ignored?
  }

  lemma StaysShut<T>(s: State<T>, e: Event<T>, late: set<nat>)
    requires Shut(s, late) && Enabled(s, e)
    ensures Shut(Apply(s, e), late)
  {
    if !PostEvent(e) {
      LoopLeavesCalls(s, e);
      hide Apply, Enabled;
    }
  }

  /** After Shutdown's store a call that had not been past its check is ignored: its
      task is not sent. */
  lemma ClosedRunnerIgnores<T(!new)>(s: State<T>, t: State<T>, u: State<T>, p: nat)
    requires Took(s, MarkClosed, t) && Runner<T>().Reaches(t, u) && p < |u.posts|
    requires p < |s.posts| ==> s.posts[p].Entering?
    ensures u.posts[p].Entering? || u.posts[p].Ignored?
  {
    var late := set q: nat | q < |s.posts| && !s.posts[q].Entering?;
    assert Shut(t, late);
    hide Enabled, Apply, Shut;
    forall u: State<T>, e: Event<T> | Shut(u, late) && Enabled(u, e) ensures Shut(Apply(u, e), late) {
      StaysShut(u, e, late);
    }
    InvariantReached(Runner<T>(), u => Shut(u, late), t, u);
    ShutMeans(u, late, p);
  }

  lemma ShutMeans<T>(u: State<T>, late: set<nat>, p: nat)
    requires Shut(u, late) && p < |u.posts| && p !in late
    ensures u.posts[p].Entering? || u.posts[p].Ignored?
  {
  }

  ghost predicate Ended<T>(s: State<T>, executed: seq<T>)
  {
    s.stopped && s.executing.None? && s.executed == executed
  }

  lemma StaysEnded<T>(s: State<T>, e: Event<T>, executed: seq<T>)
    requires Ended(s, executed) && Enabled(s, e)
    ensures Ended(Apply(s, e), executed)
  {
  }

  /** Once the loop has exited nothing runs any more. */
  lemma NothingRunsAfterExit<T(!new)>(s: State<T>, t: State<T>, u: State<T>)
    requires Took(s, Exit, t) && Runner<T>().Reaches(t, u)
    ensures u.executed == s.executed && u.executing.None?
  {
    assert Ended(t, s.executed);
    hide Enabled, Apply, Ended;
    forall u: State<T>, e: Event<T> | Ended(u, s.executed) && Enabled(u, e) ensures Ended(Apply(u, e), s.executed) {
      StaysEnded(u, e, s.executed);
    }
    InvariantReached(Runner<T>(), u => Ended(u, s.executed), t, u);
    EndedMeans(u, s.executed);
  }

  lemma EndedMeans<T>(u: State<T>, executed: seq<T>)
    requires Ended(u, executed)
    ensures u.executed == executed && u.executing.None?
  {
  }

  // ----- the runner comes to rest -----

  function PostWork<T>(p: PostPc<T>): nat
  {
    match p
    case Entering(_) => 5 case Reading(_) => 4 case Sending(_, _) => 3
    case Accepted => 0 case Ignored => 0 case Rejected => 0
  }

  function Work<T>(s: State<T>): nat
  {
    Sum(s.posts, PostWork) + 2 * |s.workQueue| + |AsSeq(s.executing)| + if s.stopped then 0 else 1
  }

  lemma InternalStepsSpendWork<T>(s: State<T>, e: Event<T>)
    requires Enabled(s, e) && Internal(e)
    ensures Work(Apply(s, e)) < Work(s)
  {
    hide Sum;
    if PostEvent(e) {
      SumUpdate(s.posts, e.p, Apply(s, e).posts[e.p], PostWork);
    } else {
      LoopLeavesCalls(s, e);
    }
  }

  /** When nobody calls any more, callers and loop take no more steps than Work says,
      and a runner whose context has ended comes to rest only with its loop exited and
      no call waiting. */
  lemma {:induction false} RunnerComesToRest<T(!new)>(s: State<T>, more: seq<Event<T>>)
    requires Runner<T>().Legal(s, more) && forall i :: 0 <= i < |more| ==> Internal(more[i])
    ensures |more| <= Work(s)
    ensures var t := Runner<T>().After(s, more);
            t.ctxDone && (forall e :: Internal(e) ==> !Enabled(t, e)) ==>
              t.stopped && forall p :: 0 <= p < |t.posts| ==> !t.posts[p].Sending?
    decreases |more|
  {
    if more == [] {
      if s.ctxDone && forall e :: Internal(e) ==> !Enabled(s, e) {
        CancelledRestIsOver(s);
      }
    } else {
      hide Work, Enabled, Apply, Internal;
      InternalStepsSpendWork(s, more[0]);
      RunnerComesToRest(Apply(s, more[0]), more[1..]);
    }
  }

  lemma CancelledRestIsOver<T(!new)>(s: State<T>)
    requires s.ctxDone && forall e :: Internal(e) ==> !Enabled(s, e)
    ensures s.stopped && forall p :: 0 <= p < |s.posts| ==> !s.posts[p].Sending?
  {
    assert !Enabled(s, EndTask) && !Enabled(s, Exit);
    forall p | 0 <= p < |s.posts| ensures !s.posts[p].Sending? {
      assert !Enabled(s, SeeDone(p));
    }
  }

  ghost predicate ContextDone<T>(s: State<T>) { s.ctxDone }

  /** Whatever follows Stop's cancel: where the runner comes to rest its loop has exited,
      so that Stop returns. */
  lemma StopEndsTheLoop<T(!new)>(s: State<T>, t: State<T>, u: State<T>)
    requires Took(s, Cancel, t) && Runner<T>().Reaches(t, u)
    ensures u.ctxDone && ((forall e :: Internal(e) ==> !Enabled(u, e)) ==> u.stopped)
  {
    assert ContextDone(t);
    forall u: State<T>, e: Event<T> | ContextDone(u) && Enabled(u, e) ensures ContextDone(Apply(u, e)) {
    }
    hide Enabled, Apply;
    InvariantReached(Runner<T>(), u => ContextDone(u), t, u);
    if forall e :: Internal(e) ==> !Enabled(u, e) {
      CancelledRestIsOver(u);
    }
  }
}
