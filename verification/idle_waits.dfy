/** What successive WaitIdle calls on a sequenced runner guarantee
    (core/sequenced_task_runner.go, WaitIdle), on the abstract FIFO runner. */
module IdleWaits {
  import opened Runs
  import opened FifoRunner

  /** A posted task remembers the position of the task whose body posted it, if any. */
  datatype Entry = Entry(parent: Option<nat>)

  datatype Event = PostOutside | PostInBody | BeginTask | EndTask

  type State = Fifo<Entry>

  predicate Enabled(s: State, e: Event)
  {
    match e
    case PostOutside => true
    case PostInBody => s.current.Some?
    case BeginTask => CanBegin(s)
    case EndTask => s.current.Some?
  }

  function Apply(s: State, e: Event): State
    requires Enabled(s, e)
  {
    match e
    case PostOutside => Post(s, Entry(None))
    case PostInBody => Post(s, Entry(Some(|s.finished|)))
    case BeginTask => Begin(s)
    case EndTask => End(s)
  }

  function Runner(): Machine<State, Event> { Machine(Enabled, Apply) }

  ghost predicate Reachable(s: State) { Runner().Reaches(Empty<Entry>(), s) }

  /** t comes later than s: its log extends that of s, and whatever was posted in
      between was not posted by a task that had finished at s. */
  ghost predicate Since(s: State, t: State)
  {
    && |s.Log()| <= |t.Log()| && t.Log()[..|s.Log()|] == s.Log()
    && |s.finished| <= |t.finished|
    && (forall c :: |s.Log()| <= c < |t.Log()| && t.Log()[c].parent.Some? ==> t.Log()[c].parent.value >= |s.finished|)
  }

  lemma StepKeepsSince(s: State, t: State, e: Event)
    requires Since(s, t) && Enabled(t, e)
    ensures Since(s, Apply(t, e))
  {
    LogOnlyGrows(t);
    var u := Apply(t, e);
    if e.PostOutside? || e.PostInBody? {
      assert u.Log() == t.Log() + [u.waiting[|t.waiting|]];
      assert u.Log()[..|s.Log()|] == t.Log()[..|s.Log()|];
    } else {
      assert u.Log() == t.Log();
    }
  }

  lemma LaterIsSince(s: State, t: State)
    requires Runner().Reaches(s, t)
    ensures Since(s, t)
  {
    assert Since(s, s);
    hide Since, Enabled, Apply;
    forall u, e | Since(s, u) && Enabled(u, e) ensures Since(s, Apply(u, e)) {
      StepKeepsSince(s, u, e);
    }
    InvariantReached(Runner(), u => Since(s, u), s, t);
  }

  /** One WaitIdle call that returned nil: it posted its barrier in state posted
      and saw the barrier's body run in state done, so everything posted before
      the barrier is over there. */
  datatype Call = Call(posted: State, done: State)
  {
    ghost predicate Succeeded()
    {
      && Runner().Reaches(Post(posted, Entry(None)), done)
      && |posted.Log()| <= |done.finished|
    }
  }

  /** Back to back: each call starts after the previous one has returned. */
  ghost predicate BackToBack(cs: seq<Call>)
  {
    && (forall i :: 0 <= i < |cs| ==> cs[i].Succeeded())
    && (forall i :: 0 < i < |cs| ==> Runner().Reaches(cs[i - 1].done, cs[i].posted))
  }

  /** y was posted by x through d immediate re-posts. */
  predicate Descends(log: seq<Entry>, y: nat, x: nat, d: nat)
    decreases d
  {
    && y < |log|
    && if d == 0 then y == x else log[y].parent.Some? && Descends(log, log[y].parent.value, x, d - 1)
  }

  lemma {:induction false} CallsReach(cs: seq<Call>, i: nat, j: nat)
    requires BackToBack(cs) && i <= j < |cs|
    ensures Runner().Reaches(cs[i].done, cs[j].done)
    decreases j - i
  {
    if i == j {
      ReachesItself(Runner(), cs[i].done);
    } else {
      CallsReach(cs, i, j - 1);
      var c := cs[j];
      ReachesNext(Runner(), cs[j - 1].done, c.posted, PostOutside);
      ReachesFurther(Runner(), cs[j - 1].done, Post(c.posted, Entry(None)), c.done);
      ReachesFurther(Runner(), cs[i].done, cs[j - 1].done, c.done);
    }
  }

  lemma {:induction false} CoveredAfter(cs: seq<Call>, last: State, x: nat, y: nat, d: nat)
    requires BackToBack(cs) && d < |cs| && x < |cs[0].posted.Log()|
    requires Runner().Reaches(cs[|cs| - 1].done, last)
    requires Descends(last.Log(), y, x, d)
    ensures y < |cs[d].done.finished|
    decreases d
  {
    if d > 0 {
      var p := last.Log()[y].parent.value;
      CallsReach(cs, d - 1, |cs| - 1);
      ReachesFurther(Runner(), cs[d - 1].done, cs[|cs| - 1].done, last);
      LaterIsSince(cs[d - 1].done, last);
      CoveredAfter(cs, last, x, p, d - 1);
      LaterIsSince(cs[d - 1].done, cs[d].posted);
    }
  }

  /** k back-to-back successful WaitIdle calls: every task that was posted before
      the first call, and every task reachable from one in fewer than k immediate
      re-posts, has finished when the last call returns, now and in every later
      state. */
  lemma WaitIdleCoversReposts(cs: seq<Call>, last: State, x: nat, y: nat, d: nat)
    requires BackToBack(cs) && d < |cs| && x < |cs[0].posted.Log()|
    requires Runner().Reaches(cs[|cs| - 1].done, last)
    requires Descends(last.Log(), y, x, d)
    ensures y < |cs[|cs| - 1].done.finished|
  {
    CoveredAfter(cs, last, x, y, d);
    CallsReach(cs, d, |cs| - 1);
    LaterIsSince(cs[d].done, cs[|cs| - 1].done);
  }

  /** The bound is sharp: one call does not cover a task's own re-post. */
  lemma OneCallMissesARepost()
    ensures exists c: Call, y: nat ::
              && Reachable(c.posted) && c.Succeeded() && |c.posted.Log()| == 1
              && Descends(c.done.Log(), y, 0, 1) && y >= |c.done.finished|
  {
    var m, s0 := Runner(), Empty<Entry>();
    ReachesItself(m, s0);
    var s1 := Apply(s0, PostOutside);
    ReachesNext(m, s0, s0, PostOutside);
    var s2 := Apply(s1, PostOutside);
    ReachesItself(m, s2);
    var s3 := Apply(s2, BeginTask);
    ReachesNext(m, s2, s2, BeginTask);
    var s4 := Apply(s3, PostInBody);
    ReachesNext(m, s2, s3, PostInBody);
    var s5 := Apply(s4, EndTask);
    ReachesNext(m, s2, s4, EndTask);
    var s6 := Apply(s5, BeginTask);
    ReachesNext(m, s2, s5, BeginTask);
    var c := Call(s1, s6);
    assert s6.Log() == [Entry(None), Entry(None), Entry(Some(0))];
    assert Descends(s6.Log(), 0, 0, 0);
    assert Descends(c.done.Log(), 2, 0, 1);
  }
}
