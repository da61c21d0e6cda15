/** What a caller of the SequencedTaskRunner may rely on (core/sequenced_task_runner.go):
    which calls get to push, in which order their tasks run, and what closing the
    runner and clearing its queue do to them. */
module SequencedCalls {
  import opened Counting
  import opened Runs
  import opened FifoRunner
  import opened SequencedRunner

  /** The call has pushed its task. */
  predicate PastPush<T>(p: PostPc<T>) { p.Pushed? || p.Won? || p.Returned? }

  /** The pushes are those of the calls in order; each call pushes its own task, once. */
  ghost predicate Listed<T>(s: State<T>)
  {
    && |s.called| == |s.posts| && |s.order| == |s.pushed|
    && (forall k :: 0 <= k < |s.order| ==> s.order[k] < |s.called| && s.pushed[k] == s.called[s.order[k]])
    && (forall j, k :: 0 <= j < k < |s.order| ==> s.order[j] != s.order[k])
  }

  ghost predicate Placed<T>(s: State<T>)
  {
    && |s.called| == |s.posts|
    && (forall p :: 0 <= p < |s.posts| ==> (p in s.order <==> PastPush(s.posts[p])))
    && (forall p :: 0 <= p < |s.posts| && (s.posts[p].Entering? || s.posts[p].Open?) ==> s.posts[p].task == s.called[p])
  }

  ghost predicate OpenTakesAll<T>(s: State<T>)
  {
    !s.closed ==> forall p :: 0 <= p < |s.posts| ==> !s.posts[p].Refused?
  }

  ghost predicate Ledger<T>(s: State<T>) { Listed(s) && Placed(s) && OpenTakesAll(s) }

  lemma PushKeepsLedger<T>(s: State<T>, p: nat)
    requires Ledger(s) && Enabled(s, Push(p))
    ensures Ledger(Apply(s, Push(p)))
  {
    var t := Apply(s, Push(p));
    assert s.posts[p].task == s.called[p];
    assert p !in s.order;
    forall q | 0 <= q < |t.posts| ensures q in t.order <==> PastPush(t.posts[q]) {
      assert q in t.order <==> q in s.order || q == p;
    }
  }

  /** A step that pushes nothing. */
  predicate SameList<T(==)>(s: State<T>, t: State<T>)
  {
    t.pushed == s.pushed && t.order == s.order && t.called == s.called
  }

  lemma CallKeepsLedger<T>(s: State<T>, task: T)
    requires Ledger(s) && Enabled(s, Call(task))
    ensures Ledger(Apply(s, Call(task)))
  {
    assert |s.posts| !in s.order;
  }

  /** One call moves on without pushing. */
  ghost predicate MovesOn<T>(s: State<T>, t: State<T>, p: nat)
  {
    && SameList(s, t) && t.closed == s.closed && p < |s.posts| == |t.posts| && t.posts == s.posts[p := t.posts[p]]
    && (PastPush(t.posts[p]) <==> PastPush(s.posts[p]))
    && (t.posts[p].Open? ==> s.posts[p].Entering? && t.posts[p].task == s.posts[p].task)
    && !t.posts[p].Entering? && (t.posts[p].Refused? ==> s.closed)
  }

  lemma PosterMovesOn<T>(s: State<T>, e: Event<T>)
    requires Enabled(s, e) && (e.LoadClosed? || e.Cas? || e.PostFirst?)
    ensures MovesOn(s, Apply(s, e), e.p)
  {
  }

  lemma MovedKeepsLedger<T>(s: State<T>, t: State<T>, p: nat)
    requires Ledger(s) && MovesOn(s, t, p)
    ensures Ledger(t)
  {
  }

  lemma PosterKeepsLedger<T>(s: State<T>, e: Event<T>)
    requires Ledger(s) && Enabled(s, e) && PosterEvent(e) && !e.Push?
    ensures Ledger(Apply(s, e))
  {
    if e.Call? {
      CallKeepsLedger(s, e.task);
    } else {
      PosterMovesOn(s, e);
      hide Apply, Enabled, Ledger, MovesOn;
      MovedKeepsLedger(s, Apply(s, e), e.p);
    }
  }

  /** Loops and clients leave the calls alone. */
  predicate SameCalls<T(==)>(s: State<T>, t: State<T>)
  {
    SameList(s, t) && t.posts == s.posts && (s.closed ==> t.closed)
  }

  lemma LoopFrame<T>(s: State<T>, e: Event<T>)
    requires Enabled(s, e) && LoopEvent(e)
    ensures SameCalls(s, Apply(s, e))
  {
    if Reposts(e) {
      hide SameCalls;
      PostingFrame(s, e);
    }
  }

  lemma PostingFrame<T>(s: State<T>, e: Event<T>)
    requires Enabled(s, e) && Reposts(e)
    ensures SameCalls(s, Apply(s, e))
  {
  }

  lemma ClientFrame<T>(s: State<T>, e: Event<T>)
    requires Enabled(s, e) && !PosterEvent(e) && !LoopEvent(e)
    ensures SameCalls(s, Apply(s, e))
  {
  }

  lemma OtherFrame<T>(s: State<T>, e: Event<T>)
    requires Enabled(s, e) && !PosterEvent(e)
    ensures SameList(s, Apply(s, e)) && Apply(s, e).posts == s.posts && (s.closed ==> Apply(s, e).closed)
  {
    hide Enabled, Apply;
    if LoopEvent(e) { LoopFrame(s, e); } else { ClientFrame(s, e); }
  }

  lemma StepKeepsLedger<T>(s: State<T>, e: Event<T>)
    requires Ledger(s) && Enabled(s, e)
    ensures Ledger(Apply(s, e))
  {
    if e.Push? {
      PushKeepsLedger(s, e.p);
    } else if PosterEvent(e) {
      PosterKeepsLedger(s, e);
    } else {
      OtherFrame(s, e);
      hide Apply, Enabled;
    }
  }

  lemma ReachableLedger<T(!new)>(s: State<T>)
    requires Reachable(s)
    ensures Ledger(s)
  {
    assert Ledger(Init<T>());
    hide Ledger, Enabled, Apply, Init;
    forall s: State<T>, e: Event<T> | Ledger(s) && Enabled(s, e) ensures Ledger(Apply(s, e)) {
      StepKeepsLedger(s, e);
    }
    InvariantReached(Runner<T>(), s => Ledger(s), Init<T>(), s);
  }

  /** t is the state after event e at s. */
  ghost predicate Took<T>(s: State<T>, e: Event<T>, t: State<T>) { Enabled(s, e) && t == Apply(s, e) }

  /** Calls are recorded as they are made, and only then. */
  lemma CalledIsTheCalls<T>(s: State<T>, e: Event<T>, t: State<T>)
    requires Took(s, e, t)
    ensures t.called == if e.Call? then s.called + [e.task] else s.called
  {
    if !PosterEvent(e) {
      OtherFrame(s, e);
    }
  }

  /** Which call comes to push its own task: on a runner that is open, all of them;
      none pushes twice, and nothing else is ever pushed. */
  lemma OpenRunnerTakesEveryCall<T(!new)>(s: State<T>, p: nat)
    requires Reachable(s) && p < |s.called|
    ensures |s.posts| == |s.called| && |s.order| == |s.pushed|
    ensures !s.closed ==> !s.posts[p].Refused?
    ensures PastPush(s.posts[p]) <==> exists k :: 0 <= k < |s.order| && s.order[k] == p
    ensures forall k :: 0 <= k < |s.order| && s.order[k] == p ==> s.pushed[k] == s.called[p]
    ensures forall j, k :: 0 <= j < k < |s.order| && s.order[j] == p ==> s.order[k] != p
  {
    ReachableLedger(s);
    assert p in s.order <==> PastPush(s.posts[p]);
  }

  /** Later pushes come after earlier ones. */
  ghost predicate Grows<T>(s: State<T>, t: State<T>)
  {
    s.order <= t.order && s.called <= t.called && s.pushed <= t.pushed
  }

  lemma StepGrows<T>(s: State<T>, e: Event<T>)
    requires Enabled(s, e)
    ensures Grows(s, Apply(s, e))
  {
    if !PosterEvent(e) {
      OtherFrame(s, e);
    }
  }

  lemma GrowsOn<T>(s: State<T>, t: State<T>, e: Event<T>)
    requires Grows(s, t) && Enabled(t, e)
    ensures Grows(s, Apply(t, e))
  {
    StepGrows(t, e);
    hide Enabled, Apply;
  }

  lemma ReachedGrows<T(!new)>(s: State<T>, t: State<T>)
    requires Runner<T>().Reaches(s, t)
    ensures Grows(s, t)
  {
    assert Grows(s, s);
    hide Grows, Enabled, Apply;
    forall u: State<T>, e: Event<T> | Grows(s, u) && Enabled(u, e) ensures Grows(s, Apply(u, e)) {
      GrowsOn(s, u, e);
    }
    InvariantReached(Runner<T>(), u => Grows(s, u), s, t);
  }

  /** A call that has pushed when another is made comes before it: in every later
      state where both have pushed, the earlier call's task has the smaller place. */
  lemma EarlierCallGoesFirst<T(!new)>(s: State<T>, u: State<T>, p: nat, j: nat, k: nat)
    requires Reachable(s) && Runner<T>().Reaches(s, u)
    requires p < |s.posts| && PastPush(s.posts[p])
    requires j < |u.order| && k < |u.order| && u.order[j] == p && u.order[k] >= |s.posts|
    ensures j < k < |u.pushed| && p < |s.called| && u.pushed[j] == s.called[p]
  {
    hide Reachable, Machine.Reaches;
    ReachableLedger(s);
    ReachedGrows(s, u);
    ReachableLater(s, u);
    ReachableLedger(u);
    forall i | 0 <= i < |s.order| ensures u.order[i] == s.order[i] < |s.posts| {
    }
    assert p in s.order;
    var i :| 0 <= i < |s.order| && s.order[i] == p;
    assert u.order[i] == p;
    assert i == j;
  }

  lemma ReachableLater<T(!new)>(s: State<T>, u: State<T>)
    requires Reachable(s) && Runner<T>().Reaches(s, u)
    ensures Reachable(u)
  {
    ReachesFurther(Runner<T>(), Init<T>(), s, u);
  }

  /** A quiet runner has no call under way. */
  lemma QuietCalls<T(!new)>(s: State<T>)
    requires Ledger(s) && Quiescent(s) && !s.closed
    ensures forall p :: 0 <= p < |s.posts| ==> s.posts[p].Returned? && p in s.order
  {
    forall p | 0 <= p < |s.posts| ensures s.posts[p].Returned? && p in s.order {
      assert !Enabled(s, LoadClosed(p)) && !Enabled(s, Push(p)) && !Enabled(s, Cas(p));
      assert !Enabled(s, PostFirst(p, true));
    }
  }

  /** On a live pool an open runner that has come to rest has executed the task of
      every call, once, in the order of their pushes. */
  lemma OpenRunnerRunsEveryCall<T(!new)>(s: State<T>)
    requires Reachable(s) && Quiescent(s) && !s.poolStopped && !s.closed
    ensures |s.posts| == |s.called| == |s.order| == |s.executed|
    ensures forall p :: 0 <= p < |s.posts| ==> s.posts[p].Returned? && p in s.order
    ensures forall k :: 0 <= k < |s.executed| ==> s.order[k] < |s.called| && s.executed[k] == s.called[s.order[k]]
    ensures multiset(s.executed) == multiset(s.called)
  {
    ReachableLedger(s);
    ReachableInv(s);
    RestedRunnerIsDone(s);
    QuietCalls(s);
    assert Kept(s) == s.pushed;
    Rearranged(s.called, s.pushed, s.order);
  }

  // ----- closing and clearing -----

  /** Nothing but the calls that were past their check pushes any more. */
  ghost predicate ShutTo<T>(s: State<T>, late: set<nat>)
  {
    && s.closed
    && (forall p :: 0 <= p < |s.posts| && s.posts[p].Open? ==> p in late)
  }

  lemma StaysShut<T>(s: State<T>, e: Event<T>, late: set<nat>, before: seq<nat>)
    requires ShutTo(s, late) && Enabled(s, e)
    requires before <= s.order && forall k :: |before| <= k < |s.order| ==> s.order[k] in late
    ensures var t := Apply(s, e);
            && ShutTo(t, late) && before <= t.order
            && forall k :: |before| <= k < |t.order| ==> t.order[k] in late
  {
    if !PosterEvent(e) {
      OtherFrame(s, e);
      hide Apply, Enabled;
    }
  }

  ghost predicate Shut<T>(s: State<T>, late: set<nat>, before: seq<nat>)
  {
    ShutTo(s, late) && before <= s.order && forall k :: |before| <= k < |s.order| ==> s.order[k] in late
  }

  /** Once the runner is closed, only the calls that had seen it open push: any other
      call, under way or yet to come, is refused. */
  lemma ClosedRunnerRefuses<T(!new)>(s: State<T>, t: State<T>, u: State<T>, p: nat)
    requires Reachable(s) && Took(s, MarkClosed, t) && Runner<T>().Reaches(t, u)
    requires p < |u.posts| && PastPush(u.posts[p])
    ensures p < |s.posts| && (PastPush(s.posts[p]) || s.posts[p].Open?)
  {
    var late := set q: nat | q < |s.posts| && s.posts[q].Open?;
    assert Shut(t, late, s.order);
    hide Enabled, Apply;
    forall u: State<T>, e: Event<T> | Shut(u, late, s.order) && Enabled(u, e)
      ensures Shut(Apply(u, e), late, s.order)
    {
      StaysShut(u, e, late, s.order);
    }
    InvariantReached(Runner<T>(), u => Shut(u, late, s.order), t, u);
    ReachableLedger(s);
    ReachesItself(Runner<T>(), s);
    ReachesNext(Runner<T>(), s, s, MarkClosed);
    StepReaches(s, MarkClosed);
    ReachableLater(t, u);
    ReachableLedger(u);
    assert p in u.order;
    var k :| 0 <= k < |u.order| && u.order[k] == p;
    if k < |s.order| {
      assert s.order[k] == p;
    }
  }

  /** What Shutdown's fresh queue leaves to do. */
  ghost predicate Cut<T>(s: State<T>, from: nat, to: nat)
  {
    s.cleared && s.cutFrom == from && s.cutTo == to
  }

  lemma CutStays<T>(s: State<T>, e: Event<T>, from: nat, to: nat)
    requires Cut(s, from, to) && Enabled(s, e)
    ensures Cut(Apply(s, e), from, to)
  {
  }

  lemma CutMeans<T>(t: State<T>, u: State<T>, from: nat, to: nat)
    requires Cut(u, from, to) && Grows(t, u) && from <= to == |t.pushed|
    ensures u.cutFrom == from && u.cutTo == to <= |u.pushed| && u.pushed[..from] == t.pushed[..from]
  {
  }

  /** Shutdown leaves nothing of the old queue: whatever runs after it has replaced the
      queue was running then or is pushed later. */
  lemma ClearedQueueIsGone<T(!new)>(s: State<T>, t: State<T>, u: State<T>)
    requires Reachable(s) && Took(s, ClearQueue, t) && Runner<T>().Reaches(t, u)
    ensures t.queue == [] && |s.pushed| <= |u.pushed|
    ensures u.executed + AsSeq(u.current) + u.queue == s.executed + AsSeq(s.current) + u.pushed[|s.pushed|..]
  {
    var from, to := |s.executed| + |AsSeq(s.current)|, |s.pushed|;
    assert Cut(t, from, to) && t.pushed == s.pushed && t.queue == [];
    StepReaches(s, ClearQueue);
    FifoConservation(s);
    assert s.pushed[..from] == s.executed + AsSeq(s.current);
    hide Cut, Enabled, Apply;
    forall u: State<T>, e: Event<T> | Cut(u, from, to) && Enabled(u, e) ensures Cut(Apply(u, e), from, to) {
      CutStays(u, e, from, to);
    }
    InvariantReached(Runner<T>(), u => Cut(u, from, to), t, u);
    ReachableLater(t, u);
    ReachedGrows(t, u);
    FifoConservation(u);
    CutMeans(t, u, from, to);
  }
}
