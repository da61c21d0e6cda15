/** The SequencedTaskRunner's lock-free run token (core/sequenced_task_runner.go),
    one event per CAS, atomic load or store, queueMu section and pool post. */
module SequencedRunner {
  import opened Counting
  import opened Runs
  import opened FifoRunner

  datatype PostPc<+T> =
    | Entering(task: T)   // about to load closed
    | Open(task: T)       // about to push
    | Pushed              // about to CAS(0, 1)
    | Won                 // about to post the first runLoop
    | Returned
    | Refused

  datatype LoopPc<+T> =
    | InPool              // posted, not yet run by a worker
    | Fetching            // about to pop one task
    | Executing(task: T)
    | Checking            // about to look for more tasks
    | Passing             // about to post the next runLoop, keeping the token
    | Idling              // about to store 0
    | Stored              // about to recheck the queue
    | Racing              // recheck saw a task, about to CAS(0, 1)
    | WonAgain            // about to post the next runLoop
    | Finished
    | Panicked            // the sanity check at the head of runLoop fired
    | Discarded           // thrown away by the pool

  datatype State<T> = State(
    queue: seq<T>,
    runningCount: int,
    closed: bool,
    cleared: bool,
    poolStopped: bool,
    posts: seq<PostPc<T>>,
    loops: seq<LoopPc<T>>,
    // history: pushes, finished bodies, the body in flight, tokens the pool
    // refused, the block of pushes that Shutdown dropped, the task of every call,
    // and the calls in the order of their pushes
    pushed: seq<T>,
    executed: seq<T>,
    current: Option<T>,
    lost: nat,
    cutFrom: nat,
    cutTo: nat,
    called: seq<T>,
    order: seq<nat>)

  datatype Event<+T> =
    | Call(task: T) | LoadClosed(p: nat) | Push(p: nat) | Cas(p: nat) | PostFirst(p: nat, ok: bool)
    | Begin(i: nat) | Fetch(i: nat) | EndTask(i: nat) | Check(i: nat) | PostNext(i: nat, ok: bool)
    | Store(i: nat) | Recheck(i: nat) | CasAgain(i: nat) | PostAgain(i: nat, ok: bool)
    | MarkClosed | ClearQueue | StopPool | Discard(i: nat)

  function Init<T>(): State<T>
  {
    State([], 0, false, false, false, [], [], [], [], None, 0, 0, 0, [], [])
  }

  predicate AtLoop<T(==)>(s: State<T>, i: nat, pc: LoopPc<T>) { i < |s.loops| && s.loops[i] == pc }

  /** A pool refuses a post only once it has been stopped. */
  predicate Enabled<T(==)>(s: State<T>, e: Event<T>)
  {
    match e
    case Call(_) => true
    case LoadClosed(p) => p < |s.posts| && s.posts[p].Entering?
    case Push(p) => p < |s.posts| && s.posts[p].Open?
    case Cas(p) => p < |s.posts| && s.posts[p].Pushed?
    case PostFirst(p, ok) => p < |s.posts| && s.posts[p].Won? && (ok || s.poolStopped)
    case Begin(i) => AtLoop(s, i, InPool)
    case Fetch(i) => AtLoop(s, i, Fetching)
    case EndTask(i) => i < |s.loops| && s.loops[i].Executing?
    case Check(i) => AtLoop(s, i, Checking)
    case PostNext(i, ok) => AtLoop(s, i, Passing) && (ok || s.poolStopped)
    case Store(i) => AtLoop(s, i, Idling)
    case Recheck(i) => AtLoop(s, i, Stored)
    case CasAgain(i) => AtLoop(s, i, Racing)
    case PostAgain(i, ok) => AtLoop(s, i, WonAgain) && (ok || s.poolStopped)
    case MarkClosed => !s.closed
    case ClearQueue => s.closed && !s.cleared
    case StopPool => true
    case Discard(i) => AtLoop(s, i, InPool) && s.poolStopped
  }

  function MovePost<T>(s: State<T>, p: nat, pc: PostPc<T>): State<T>
    requires p < |s.posts|
  {
    s.(posts := s.posts[p := pc])
  }

  function MoveLoop<T>(s: State<T>, i: nat, pc: LoopPc<T>): State<T>
    requires i < |s.loops|
  {
    s.(loops := s.loops[i := pc])
  }

  /** threadPool.PostInternal(r.runLoop, ...) */
  function PostRunLoop<T>(s: State<T>, ok: bool): State<T>
  {
    if ok then s.(loops := s.loops + [InPool]) else s.(lost := s.lost + 1)
  }

  function Apply<T(==)>(s: State<T>, e: Event<T>): State<T>
    requires Enabled(s, e)
  {
    match e
    case Call(t) => s.(posts := s.posts + [Entering(t)], called := s.called + [t])
    case LoadClosed(p) => MovePost(s, p, if s.closed then Refused else Open(s.posts[p].task))
    case Push(p) =>
      MovePost(s, p, Pushed).(queue := s.queue + [s.posts[p].task], pushed := s.pushed + [s.posts[p].task],
                              order := s.order + [p])
    case Cas(p) =>
      if s.runningCount == 0 then MovePost(s, p, Won).(runningCount := 1) else MovePost(s, p, Returned)
    case PostFirst(p, ok) => PostRunLoop(MovePost(s, p, Returned), ok)
    case Begin(i) => MoveLoop(s, i, if s.runningCount == 1 then Fetching else Panicked)
    case Fetch(i) =>
      if s.queue == [] then MoveLoop(s, i, Idling)
      else MoveLoop(s, i, Executing(s.queue[0])).(queue := s.queue[1..], current := Some(s.queue[0]))
    case EndTask(i) =>
      MoveLoop(s, i, Checking).(executed := s.executed + [s.loops[i].task], current := None)
    case Check(i) => MoveLoop(s, i, if s.queue != [] then Passing else Idling)
    case PostNext(i, ok) => PostRunLoop(MoveLoop(s, i, Finished), ok)
    case Store(i) => MoveLoop(s, i, Stored).(runningCount := 0)
    case Recheck(i) => MoveLoop(s, i, if s.queue != [] then Racing else Finished)
    case CasAgain(i) =>
      if s.runningCount == 0 then MoveLoop(s, i, WonAgain).(runningCount := 1) else MoveLoop(s, i, Finished)
    case PostAgain(i, ok) => PostRunLoop(MoveLoop(s, i, Finished), ok)
    case MarkClosed => s.(closed := true)
    case ClearQueue =>
      s.(queue := [], cleared := true, cutFrom := |s.executed| + |AsSeq(s.current)|, cutTo := |s.pushed|)
    case StopPool => s.(poolStopped := true)
    case Discard(i) => MoveLoop(s, i, Discarded).(lost := s.lost + 1)
  }

  // ----- the invariant -----

  /** Who holds the run token. */
  function PostToken<T>(p: PostPc<T>): nat { if p.Won? then 1 else 0 }

  function LoopToken<T>(l: LoopPc<T>): nat
  {
    match l
    case InPool => 1 case Fetching => 1 case Executing(_) => 1 case Checking => 1
    case Passing => 1 case Idling => 1 case WonAgain => 1
    case _ => 0
  }

  /** Who will still look at the queue although it holds no token. */
  function PostLooks<T>(p: PostPc<T>): nat { if p.Pushed? then 1 else 0 }
  function LoopLooks<T>(l: LoopPc<T>): nat { if l.Stored? || l.Racing? then 1 else 0 }
  function InBody<T>(l: LoopPc<T>): nat { if l.Executing? then 1 else 0 }

  function Tokens<T>(s: State<T>): nat { Sum(s.posts, PostToken) + Sum(s.loops, LoopToken) }
  function Lookers<T>(s: State<T>): nat { Sum(s.posts, PostLooks) + Sum(s.loops, LoopLooks) }

  ghost predicate TokenInv<T>(s: State<T>)
  {
    && Tokens(s) + s.lost == s.runningCount <= 1
    && (!s.poolStopped ==> s.lost == 0)
    && forall i :: 0 <= i < |s.loops| ==> !s.loops[i].Panicked?
  }

  ghost predicate WakeInv<T>(s: State<T>)
  {
    s.queue != [] && s.runningCount == 0 ==> Lookers(s) > 0
  }

  ghost predicate BodyInv<T>(s: State<T>)
  {
    && Sum(s.loops, InBody) == |AsSeq(s.current)|
    && forall i :: 0 <= i < |s.loops| && s.loops[i].Executing? ==> s.current == Some(s.loops[i].task)
  }

  /** The pushes that Shutdown did not drop. */
  function Kept<T>(s: State<T>): seq<T>
    requires s.cutFrom <= s.cutTo <= |s.pushed|
  {
    s.pushed[..s.cutFrom] + s.pushed[s.cutTo..]
  }

  function Abs<T>(s: State<T>): Fifo<T>
  {
    Fifo(s.executed, s.current, s.queue)
  }

  ghost predicate OrderInv<T>(s: State<T>)
  {
    && s.cutFrom <= s.cutTo <= |s.pushed|
    && (!s.cleared ==> s.cutTo == 0)
    && (s.cleared ==> s.closed && s.cutFrom <= |s.executed| + |AsSeq(s.current)|)
    && Abs(s).Log() == Kept(s)
  }

  ghost predicate Inv<T>(s: State<T>)
  {
    TokenInv(s) && WakeInv(s) && BodyInv(s) && OrderInv(s)
  }

  lemma InitInv<T>()
    ensures Inv(Init<T>())
  {
    hide TokenInv, WakeInv, BodyInv, OrderInv, Init;
    InitTokens(Init<T>());
    InitWake(Init<T>());
    InitBody(Init<T>());
    InitOrder<T>();
  }

  lemma InitTokens<T>(s: State<T>)
    requires s == Init<T>()
    ensures TokenInv(s)
  {
    hide Sum;
    SumZero(s.posts, PostToken<T>);
    SumZero(s.loops, LoopToken<T>);
  }

  lemma InitWake<T>(s: State<T>)
    requires s == Init<T>()
    ensures WakeInv(s)
  {
    hide Sum;
  }

  lemma InitBody<T>(s: State<T>)
    requires s == Init<T>()
    ensures BodyInv(s)
  {
    hide Sum;
    SumZero(s.loops, InBody<T>);
  }

  lemma InitOrder<T>()
    ensures OrderInv(Init<T>())
  {
    var s := Init<T>();
    assert Abs(s).Log() == [];
    assert Kept(s) == [];
  }

  // ----- one step -----

  lemma PostMoves<T>(s: State<T>, p: nat, pc: PostPc<T>)
    requires p < |s.posts|
    ensures var ps := s.posts[p := pc];
            && Sum(ps, PostToken) + PostToken(s.posts[p]) == Sum(s.posts, PostToken) + PostToken(pc)
            && Sum(ps, PostLooks) + PostLooks(s.posts[p]) == Sum(s.posts, PostLooks) + PostLooks(pc)
            && PostToken(s.posts[p]) <= Sum(s.posts, PostToken)
  {
    SumUpdate(s.posts, p, pc, PostToken);
    SumUpdate(s.posts, p, pc, PostLooks);
    SumAt(s.posts, p, PostToken);
  }

  lemma LoopMoves<T>(s: State<T>, i: nat, pc: LoopPc<T>)
    requires i < |s.loops|
    ensures var ls := s.loops[i := pc];
            && Sum(ls, LoopToken) + LoopToken(s.loops[i]) == Sum(s.loops, LoopToken) + LoopToken(pc)
            && Sum(ls, LoopLooks) + LoopLooks(s.loops[i]) == Sum(s.loops, LoopLooks) + LoopLooks(pc)
            && Sum(ls, InBody) + InBody(s.loops[i]) == Sum(s.loops, InBody) + InBody(pc)
            && LoopToken(s.loops[i]) <= Sum(s.loops, LoopToken)
            && InBody(s.loops[i]) <= Sum(s.loops, InBody)
  {
    SumUpdate(s.loops, i, pc, LoopToken);
    SumUpdate(s.loops, i, pc, LoopLooks);
    SumUpdate(s.loops, i, pc, InBody);
    SumAt(s.loops, i, LoopToken);
    SumAt(s.loops, i, InBody);
  }

  lemma RunLoopPosted<T>(s: State<T>)
    ensures var ls := s.loops + [InPool];
            && Sum(ls, LoopToken) == Sum(s.loops, LoopToken) + 1
            && Sum(ls, LoopLooks) == Sum(s.loops, LoopLooks)
            && Sum(ls, InBody) == Sum(s.loops, InBody)
  {
    SumAppend(s.loops, InPool, LoopToken);
    SumAppend(s.loops, InPool, LoopLooks);
    SumAppend(s.loops, InPool, InBody);
  }

  predicate PosterEvent<T>(e: Event<T>) { e.Call? || e.LoadClosed? || e.Push? || e.Cas? || e.PostFirst? }
  predicate Reposts<T>(e: Event<T>) { e.PostNext? || e.PostAgain? }
  predicate LoopEvent<T>(e: Event<T>)
  {
    e.Begin? || e.Fetch? || e.EndTask? || e.Check? || e.Store? || e.Recheck? || e.CasAgain? || e.Discard? || Reposts(e)
  }

  lemma PosterStep<T>(s: State<T>, e: Event<T>)
    requires Inv(s) && Enabled(s, e) && PosterEvent(e)
    ensures var t := Apply(s, e); TokenInv(t) && WakeInv(t) && BodyInv(t)
  {
    if e.Call? {
      SumAppend(s.posts, Entering(e.task), PostToken);
      SumAppend(s.posts, Entering(e.task), PostLooks);
    } else if e.PostFirst? {
      PostFirstStep(s, e.p, e.ok);
    } else if e.Cas? {
      CasStep(s, e.p);
    } else {
      PostMoves(s, e.p, Apply(s, e).posts[e.p]);
    }
  }

  lemma PostFirstStep<T>(s: State<T>, p: nat, ok: bool)
    requires Inv(s) && Enabled(s, PostFirst(p, ok))
    ensures var t := Apply(s, PostFirst(p, ok)); TokenInv(t) && WakeInv(t) && BodyInv(t)
  {
    PostMoves(s, p, Returned);
    RunLoopPosted(s);
  }

  lemma CasStep<T>(s: State<T>, p: nat)
    requires Inv(s) && Enabled(s, Cas(p))
    ensures var t := Apply(s, Cas(p)); TokenInv(t) && WakeInv(t) && BodyInv(t)
  {
    PostMoves(s, p, Apply(s, Cas(p)).posts[p]);
  }

  lemma RepostStep<T>(s: State<T>, e: Event<T>)
    requires Inv(s) && Enabled(s, e) && Reposts(e)
    ensures var t := Apply(s, e); TokenInv(t) && WakeInv(t) && BodyInv(t)
  {
    hide OrderInv, Sum;
    LoopMoves(s, e.i, Finished);
    RunLoopPosted(MoveLoop(s, e.i, Finished));
    var t := Apply(s, e);
    assert t == PostRunLoop(MoveLoop(s, e.i, Finished), e.ok);
    assert LoopToken(s.loops[e.i]) == 1 && LoopLooks(s.loops[e.i]) == 0 && InBody(s.loops[e.i]) == 0;
    hide Apply, Enabled;
  }

  /** The token is unique: nobody else executes while loop i holds it. */
  lemma TokenIsUnique<T>(s: State<T>, i: nat, j: nat)
    requires TokenInv(s) && i < |s.loops| && j < |s.loops| && i != j
    requires LoopToken(s.loops[i]) == 1
    ensures LoopToken(s.loops[j]) == 0 && !s.loops[j].Executing?
  {
    SumAtTwo(s.loops, if j < i then j else i, if j < i then i else j, LoopToken);
  }

  /** A loop that is about to fetch is the only token holder, so no body runs. */
  lemma FetchingIsAlone<T>(s: State<T>, i: nat)
    requires TokenInv(s) && BodyInv(s) && AtLoop(s, i, Fetching)
    ensures s.current.None?
  {
    if s.current.Some? {
      var j := SumWitness(s.loops, InBody);
      TokenIsUnique(s, i, j);
    }
  }

  lemma FetchStep<T>(s: State<T>, i: nat)
    requires Inv(s) && Enabled(s, Fetch(i)) && s.queue != []
    ensures var t := Apply(s, Fetch(i)); TokenInv(t) && WakeInv(t) && BodyInv(t)
  {
    var t := Apply(s, Fetch(i));
    LoopMoves(s, i, t.loops[i]);
    FetchingIsAlone(s, i);
    forall j | 0 <= j < |t.loops| && t.loops[j].Executing? ensures t.current == Some(t.loops[j].task) {
      if j != i {
        TokenIsUnique(s, i, j);
      }
    }
  }

  lemma EndTaskStep<T>(s: State<T>, i: nat)
    requires Inv(s) && Enabled(s, EndTask(i))
    ensures var t := Apply(s, EndTask(i)); TokenInv(t) && WakeInv(t) && BodyInv(t)
  {
    var t := Apply(s, EndTask(i));
    LoopMoves(s, i, Checking);
    forall j | 0 <= j < |t.loops| ensures !t.loops[j].Executing? {
      if j != i {
        TokenIsUnique(s, i, j);
      }
    }
  }

  /** A loop moves between two places outside a body and the count follows the token. */
  lemma LoopGoes<T>(s: State<T>, i: nat, pc: LoopPc<T>, count: int)
    requires TokenInv(s) && BodyInv(s) && i < |s.loops|
    requires !s.loops[i].Executing? && !pc.Executing? && !pc.Panicked?
    requires LoopToken(pc) + s.runningCount == LoopToken(s.loops[i]) + count && count <= 1
    requires s.queue != [] && count == 0 ==>
              LoopLooks(pc) == 1 || (LoopLooks(s.loops[i]) == 0 && WakeInv(s) && s.runningCount == 0)
    ensures var t := MoveLoop(s, i, pc).(runningCount := count); TokenInv(t) && WakeInv(t) && BodyInv(t)
  {
    LoopMoves(s, i, pc);
    SumAt(s.loops[i := pc], i, LoopLooks);
  }

  lemma LoopStep<T>(s: State<T>, e: Event<T>)
    requires Inv(s) && Enabled(s, e) && LoopEvent(e) && !Reposts(e) && !e.EndTask? && !e.Discard?
    requires e.Fetch? ==> s.queue == []
    ensures var t := Apply(s, e); TokenInv(t) && WakeInv(t) && BodyInv(t)
  {
    hide OrderInv, Sum;
    LoopMoves(s, e.i, InPool);
    var t := Apply(s, e);
    LoopGoes(s, e.i, t.loops[e.i], t.runningCount);
  }

  lemma DiscardStep<T>(s: State<T>, i: nat)
    requires Inv(s) && Enabled(s, Discard(i))
    ensures var t := Apply(s, Discard(i)); TokenInv(t) && WakeInv(t) && BodyInv(t)
  {
    LoopMoves(s, i, Discarded);
  }

  lemma PushKeepsOrder<T>(s: State<T>, p: nat)
    requires OrderInv(s) && Enabled(s, Push(p))
    ensures OrderInv(Apply(s, Push(p)))
  {
    var t := Apply(s, Push(p));
    assert t == s.(posts := t.posts, queue := t.queue, order := t.order, pushed := s.pushed + [s.posts[p].task]);
    hide Apply;
    LogOnlyGrows(Abs(s));
    assert Abs(t) == FifoRunner.Post(Abs(s), s.posts[p].task);
    assert Kept(t) == Kept(s) + [s.posts[p].task];
  }

  lemma ClearKeepsOrder<T>(s: State<T>)
    requires OrderInv(s) && Enabled(s, ClearQueue)
    ensures OrderInv(Apply(s, ClearQueue))
  {
    var t := Apply(s, ClearQueue);
    assert Kept(s) == s.pushed;
    assert Abs(t).Log() == s.executed + AsSeq(s.current) == s.pushed[..t.cutFrom];
  }

  lemma BodyKeepsOrder<T>(s: State<T>, e: Event<T>)
    requires OrderInv(s) && Enabled(s, e)
    requires (e.Fetch? && s.queue != [] && s.current.None?) || (e.EndTask? && s.current == Some(s.loops[e.i].task))
    ensures OrderInv(Apply(s, e))
  {
    var t := Apply(s, e);
    LogOnlyGrows(Abs(s));
    if e.Fetch? {
      assert Abs(t) == FifoRunner.Begin(Abs(s));
    } else {
      assert Abs(t) == FifoRunner.End(Abs(s));
    }
  }

  /** What the order is made of stays as it is. */
  predicate SameOrder<T(==)>(s: State<T>, t: State<T>)
  {
    && t.executed == s.executed && t.current == s.current && t.queue == s.queue && t.pushed == s.pushed
    && t.cutFrom == s.cutFrom && t.cutTo == s.cutTo && t.cleared == s.cleared && (s.closed ==> t.closed)
  }

  predicate Orders<T>(s: State<T>, e: Event<T>)
  {
    e.Push? || (e.Fetch? && s.queue != []) || e.EndTask? || e.ClearQueue?
  }

  lemma OtherStep<T>(s: State<T>, e: Event<T>)
    requires Enabled(s, e) && !Orders(s, e)
    ensures SameOrder(s, Apply(s, e))
  {
    if PosterEvent(e) {
      PosterFrame(s, e);
    } else if LoopEvent(e) {
      LoopFrame(s, e);
    }
  }

  lemma PosterFrame<T>(s: State<T>, e: Event<T>)
    requires Enabled(s, e) && PosterEvent(e) && !e.Push?
    ensures SameOrder(s, Apply(s, e))
  {
  }

  lemma LoopFrame<T>(s: State<T>, e: Event<T>)
    requires Enabled(s, e) && LoopEvent(e) && !Orders(s, e)
    ensures SameOrder(s, Apply(s, e))
  {
    if Reposts(e) || e.Discard? { HandOverFrame(s, e); } else { MoveFrame(s, e); }
  }

  lemma HandOverFrame<T>(s: State<T>, e: Event<T>)
    requires Enabled(s, e) && (Reposts(e) || e.Discard?)
    ensures SameOrder(s, Apply(s, e))
  {
  }

  lemma MoveFrame<T>(s: State<T>, e: Event<T>)
    requires Enabled(s, e) && LoopEvent(e) && !Orders(s, e) && !Reposts(e) && !e.Discard?
    ensures SameOrder(s, Apply(s, e))
  {
    var t := Apply(s, e);
    assert t.(loops := s.loops, runningCount := s.runningCount) == s;
  }

  lemma StepKeepsOrder<T>(s: State<T>, e: Event<T>)
    requires Inv(s) && Enabled(s, e)
    ensures OrderInv(Apply(s, e))
  {
    hide WakeInv, OrderInv;
    if !Orders(s, e) {
      OtherStep(s, e);
      hide TokenInv, BodyInv, Enabled, Apply;
      OrderUnmoved(s, Apply(s, e));
    } else if e.Push? {
      PushKeepsOrder(s, e.p);
    } else if e.ClearQueue? {
      ClearKeepsOrder(s);
    } else {
      if e.Fetch? { FetchingIsAlone(s, e.i); }
      BodyKeepsOrder(s, e);
    }
  }

  lemma OrderUnmoved<T>(s: State<T>, t: State<T>)
    requires OrderInv(s) && SameOrder(s, t)
    ensures OrderInv(t)
  {
  }

  lemma ClientStep<T>(s: State<T>, e: Event<T>)
    requires Inv(s) && Enabled(s, e) && (e.MarkClosed? || e.ClearQueue? || e.StopPool?)
    ensures var t := Apply(s, e); TokenInv(t) && WakeInv(t) && BodyInv(t)
  {
    hide OrderInv;
  }

  lemma StepKeepsInv<T>(s: State<T>, e: Event<T>)
    requires Inv(s) && Enabled(s, e)
    ensures Inv(Apply(s, e))
  {
    StepKeepsOrder(s, e);
    hide TokenInv, WakeInv, BodyInv, OrderInv, Apply;
    if PosterEvent(e) {
      PosterStep(s, e);
    } else if e.Fetch? && s.queue != [] {
      FetchStep(s, e.i);
    } else if e.EndTask? {
      EndTaskStep(s, e.i);
    } else if Reposts(e) {
      RepostStep(s, e);
    } else if e.Discard? {
      DiscardStep(s, e.i);
    } else if LoopEvent(e) {
      LoopStep(s, e);
    } else {
      ClientStep(s, e);
    }
  }

  function Runner<T(==,!new)>(): Machine<State<T>, Event<T>> { Machine(Enabled<T>, Apply<T>) }

  ghost predicate Reachable<T(!new)>(s: State<T>) { Runner<T>().Reaches(Init<T>(), s) }

  lemma ReachableInv<T(!new)>(s: State<T>)
    requires Reachable(s)
    ensures Inv(s)
  {
    hide Inv, Enabled, Apply, Init;
    InitInv<T>();
    forall s: State<T>, e: Event<T> | Inv(s) && Enabled(s, e) ensures Inv(Apply(s, e)) {
      StepKeepsInv(s, e);
    }
    InvariantReached(Runner<T>(), s => Inv(s), Init<T>(), s);
  }

  // ----- what every run guarantees -----

  /** The panic at the head of runLoop never fires, at most one body runs at a
      time, and runningCount counts the tokens (those a stopped pool swallowed
      included). */
  lemma OneTokenOneBody<T(!new)>(s: State<T>)
    requires Reachable(s)
    ensures 0 <= s.runningCount <= 1 && Tokens(s) == s.runningCount - s.lost
    ensures !s.poolStopped ==> Tokens(s) == s.runningCount
    ensures forall i :: 0 <= i < |s.loops| ==> !s.loops[i].Panicked?
    ensures forall i, j :: 0 <= i < j < |s.loops| ==> !(s.loops[i].Executing? && s.loops[j].Executing?)
  {
    ReachableInv(s);
    forall i, j | 0 <= i < j < |s.loops| ensures !(s.loops[i].Executing? && s.loops[j].Executing?) {
      if s.loops[i].Executing? {
        TokenHeld(s, i);
        TokenIsUnique(s, i, j);
      }
    }
  }

  lemma TokenHeld<T>(s: State<T>, i: nat)
    requires TokenInv(s) && i < |s.loops| && s.loops[i].Executing?
    ensures LoopToken(s.loops[i]) == 1
  {
  }

  /** FIFO and conservation: finished bodies, the body in flight and the queue
      are the pushes in order, less one contiguous block, which is empty unless
      Shutdown cleared the queue. */
  lemma FifoConservation<T(!new)>(s: State<T>)
    requires Reachable(s)
    ensures s.cutFrom <= s.cutTo <= |s.pushed|
    ensures s.executed + AsSeq(s.current) + s.queue == s.pushed[..s.cutFrom] + s.pushed[s.cutTo..]
    ensures !s.cleared ==> s.executed + AsSeq(s.current) + s.queue == s.pushed
  {
    ReachableInv(s);
    assert Abs(s).Log() == Kept(s);
    if !s.cleared {
      assert Kept(s) == s.pushed;
    }
  }

  /** Steps that the runner, its posters and its pool take by themselves. */
  predicate Internal<T>(e: Event<T>)
  {
    (PosterEvent(e) && !e.Call?) || (LoopEvent(e) && !e.Discard?)
  }

  ghost predicate Quiescent<T(!new)>(s: State<T>)
  {
    forall e :: Internal(e) ==> !Enabled(s, e)
  }

  /** A poster that has nothing left to do holds and owes nothing. */
  lemma QuietPosts<T(!new)>(s: State<T>)
    requires forall e :: PosterEvent(e) && !e.Call? ==> !Enabled(s, e)
    ensures Sum(s.posts, PostToken) == 0 && Sum(s.posts, PostLooks) == 0
  {
    forall p | 0 <= p < |s.posts| ensures PostToken(s.posts[p]) == 0 && PostLooks(s.posts[p]) == 0 {
      assert !Enabled(s, PostFirst(p, true)) && !Enabled(s, Cas(p));
    }
    SumZero(s.posts, PostToken);
    SumZero(s.posts, PostLooks);
  }

  /** A loop that no step can move is out of the game. */
  lemma QuietLoop<T(!new)>(s: State<T>, i: nat)
    requires i < |s.loops| && Quiescent(s)
    ensures s.loops[i].Finished? || s.loops[i].Panicked? || s.loops[i].Discarded?
  {
    QuietBody(s, i);
    assert !Enabled(s, Store(i)) && !Enabled(s, Recheck(i)) && !Enabled(s, CasAgain(i));
    assert !Enabled(s, PostNext(i, true)) && !Enabled(s, PostAgain(i, true));
  }

  lemma QuietBody<T(!new)>(s: State<T>, i: nat)
    requires i < |s.loops| && Quiescent(s)
    ensures !s.loops[i].InPool? && !s.loops[i].Fetching? && !s.loops[i].Executing? && !s.loops[i].Checking?
  {
    assert !Enabled(s, Begin(i)) && !Enabled(s, Fetch(i)) && !Enabled(s, EndTask(i)) && !Enabled(s, Check(i));
  }

  /** On a live pool a runner that has come to rest has executed every push that
      Shutdown did not drop. */
  lemma RestedRunnerIsDone<T(!new)>(s: State<T>)
    requires Inv(s) && Quiescent(s) && !s.poolStopped
    ensures s.queue == [] && s.cutFrom <= s.cutTo <= |s.pushed| && s.executed == Kept(s)
  {
    QuietPosts(s);
    forall i | 0 <= i < |s.loops|
      ensures LoopToken(s.loops[i]) == 0 && LoopLooks(s.loops[i]) == 0 && InBody(s.loops[i]) == 0
    {
      QuietLoop(s, i);
    }
    SumZero(s.loops, LoopToken);
    SumZero(s.loops, LoopLooks);
    SumZero(s.loops, InBody);
    assert Abs(s).Log() == s.executed;
  }

  /** No lost wakeup: a queued task on an idle runner always has somebody about
      to look, so a runner at rest on a live pool has nothing queued. */
  lemma NoLostWakeup<T(!new)>(s: State<T>)
    requires Reachable(s)
    ensures s.queue != [] && s.runningCount == 0 ==> Lookers(s) > 0
    ensures Quiescent(s) && !s.poolStopped ==>
              s.queue == [] && s.cutFrom <= s.cutTo <= |s.pushed| && s.executed == Kept(s)
  {
    ReachableInv(s);
    if Quiescent(s) && !s.poolStopped {
      RestedRunnerIsDone(s);
    }
  }

  /** Every step of the real runner is a step of the abstract FIFO runner or none. */
  lemma Refines<T(!new)>(s: State<T>, e: Event<T>)
    requires Reachable(s) && Enabled(s, e)
    ensures FifoRunner.Steps(Abs(s), Abs(Apply(s, e)))
  {
    ReachableInv(s);
    if e.Push? {
      assert Abs(Apply(s, e)) == FifoRunner.Post(Abs(s), s.posts[e.p].task);
    } else if e.Fetch? && s.queue != [] {
      FetchingIsAlone(s, e.i);
      assert Abs(Apply(s, e)) == FifoRunner.Begin(Abs(s));
    } else if e.EndTask? {
      assert Abs(Apply(s, e)) == FifoRunner.End(Abs(s));
    } else if e.ClearQueue? {
      assert Abs(Apply(s, e)) == FifoRunner.Clear(Abs(s));
    } else {
      assert Abs(Apply(s, e)) == Abs(s);
    }
  }

  // ----- the runner itself -----

  lemma StepReaches<T(!new)>(s: State<T>, e: Event<T>)
    requires Reachable(s) && Enabled(s, e)
    ensures Reachable(Apply(s, e))
  {
    hide Enabled, Apply, Init;
    ReachesNext(Runner<T>(), Init<T>(), s, e);
  }

  class SequencedTaskRunner<T(==,!new)> {
    var queue: seq<T>
    var runningCount: int
    var closed: bool
    var cleared: bool
    var poolStopped: bool            // the thread pool refuses posts from now on
    var posts: seq<PostPc<T>>        // the calls that post a task, with their local state
    var loops: seq<LoopPc<T>>        // the runLoops given to the pool, with theirs
    ghost var pushed: seq<T>
    ghost var executed: seq<T>
    ghost var current: Option<T>
    ghost var lost: nat
    ghost var cutFrom: nat
    ghost var cutTo: nat
    ghost var called: seq<T>
    ghost var order: seq<nat>

    ghost function Snapshot(): State<T>
      reads this
    {
      State(queue, runningCount, closed, cleared, poolStopped, posts, loops, pushed, executed, current, lost,
            cutFrom, cutTo, called, order)
    }

    /** The fields are those of a reachable state, so everything above holds of them. */
    ghost predicate Valid()
      reads this
    {
      Reachable(Snapshot())
    }

    constructor ()
      ensures Valid() && Snapshot() == Init()
    {
      queue, runningCount, closed, cleared, poolStopped, posts, loops := [], 0, false, false, false, [], [];
      pushed, executed, current, lost, cutFrom, cutTo, called, order := [], [], None, 0, 0, 0, [], [];
      new;
      ReachesItself(Runner<T>(), Init<T>());
    }

    method PostTask(task: T)
      requires Valid()
      modifies this
      ensures Valid() && Snapshot() == Apply(old(Snapshot()), Call(task))
    {
      hide Reachable;
      StepReaches(Snapshot(), Call(task));
      posts, called := posts + [Entering(task)], called + [task];
    }

    method CheckClosed(p: nat)
      requires Valid() && p < |posts| && posts[p].Entering?
      modifies this
      ensures Valid() && Snapshot() == Apply(old(Snapshot()), LoadClosed(p))
    {
      hide Reachable;
      StepReaches(Snapshot(), LoadClosed(p));
      if closed {
        posts := posts[p := Refused];
      } else {
        posts := posts[p := Open(posts[p].task)];
      }
    }

    method PushTask(p: nat)
      requires Valid() && p < |posts| && posts[p].Open?
      modifies this
      ensures Valid() && Snapshot() == Apply(old(Snapshot()), Push(p))
    {
      hide Reachable;
      StepReaches(Snapshot(), Push(p));
      queue, pushed, order := queue + [posts[p].task], pushed + [posts[p].task], order + [p];
      posts := posts[p := Pushed];
    }

    /** ensureRunning's CompareAndSwap for a poster, */
    method EnsureRunning(p: nat)
      requires Valid() && p < |posts| && posts[p].Pushed?
      modifies this
      ensures Valid() && Snapshot() == Apply(old(Snapshot()), Cas(p))
    {
      hide Reachable;
      StepReaches(Snapshot(), Cas(p));
      if runningCount == 0 {
        runningCount := 1;
        posts := posts[p := Won];
      } else {
        posts := posts[p := Returned];
      }
    }

    /** and its post of the first runLoop; ok: whether the pool takes it. */
    method PostRunLoopFirst(p: nat, ok: bool)
      requires Valid() && p < |posts| && posts[p].Won? && (ok || poolStopped)
      modifies this
      ensures Valid() && Snapshot() == Apply(old(Snapshot()), PostFirst(p, ok))
    {
      hide Reachable;
      StepReaches(Snapshot(), PostFirst(p, ok));
      posts := posts[p := Returned];
      if ok {
        loops := loops + [InPool];
      } else {
        lost := lost + 1;
      }
    }

    /** The head of runLoop with its sanity check. */
    method BeginLoop(i: nat)
      requires Valid() && i < |loops| && loops[i] == InPool
      modifies this
      ensures Valid() && Snapshot() == Apply(old(Snapshot()), Begin(i))
      ensures !loops[i].Panicked?
    {
      hide Reachable;
      StepReaches(Snapshot(), Begin(i));
      if runningCount != 1 {
        loops := loops[i := Panicked];
      } else {
        loops := loops[i := Fetching];
      }
      OneTokenOneBody(Snapshot());
    }

    method FetchTask(i: nat)
      requires Valid() && i < |loops| && loops[i] == Fetching
      modifies this
      ensures Valid() && Snapshot() == Apply(old(Snapshot()), Fetch(i))
    {
      hide Reachable;
      StepReaches(Snapshot(), Fetch(i));
      if |queue| == 0 {
        loops := loops[i := Idling];
      } else {
        current := Some(queue[0]);
        loops := loops[i := Executing(queue[0])];
        queue := queue[1..];
      }
    }

    /** The body returns, or panics and is recovered. */
    method TaskEnds(i: nat)
      requires Valid() && i < |loops| && loops[i].Executing?
      modifies this
      ensures Valid() && Snapshot() == Apply(old(Snapshot()), EndTask(i))
    {
      hide Reachable;
      StepReaches(Snapshot(), EndTask(i));
      executed, current := executed + [loops[i].task], None;
      loops := loops[i := Checking];
    }

    method CheckMore(i: nat)
      requires Valid() && i < |loops| && loops[i] == Checking
      modifies this
      ensures Valid() && Snapshot() == Apply(old(Snapshot()), Check(i))
    {
      hide Reachable;
      StepReaches(Snapshot(), Check(i));
      if |queue| != 0 {
        loops := loops[i := Passing];
      } else {
        loops := loops[i := Idling];
      }
    }

    /** runLoop posts its successor and keeps runningCount at 1. */
    method PassOn(i: nat, ok: bool)
      requires Valid() && i < |loops| && loops[i] == Passing && (ok || poolStopped)
      modifies this
      ensures Valid() && Snapshot() == Apply(old(Snapshot()), PostNext(i, ok))
    {
      hide Reachable;
      StepReaches(Snapshot(), PostNext(i, ok));
      loops := loops[i := Finished];
      if ok {
        loops := loops + [InPool];
      } else {
        lost := lost + 1;
      }
    }

    method GoIdle(i: nat)
      requires Valid() && i < |loops| && loops[i] == Idling
      modifies this
      ensures Valid() && Snapshot() == Apply(old(Snapshot()), Store(i))
    {
      hide Reachable;
      StepReaches(Snapshot(), Store(i));
      runningCount := 0;
      loops := loops[i := Stored];
    }

    /** scheduleNextIfNeeded: the second look at the queue, */
    method ScheduleNextIfNeeded(i: nat)
      requires Valid() && i < |loops| && loops[i] == Stored
      modifies this
      ensures Valid() && Snapshot() == Apply(old(Snapshot()), Recheck(i))
    {
      hide Reachable;
      StepReaches(Snapshot(), Recheck(i));
      if |queue| != 0 {
        loops := loops[i := Racing];
      } else {
        loops := loops[i := Finished];
      }
    }

    /** ensureRunning's CompareAndSwap after it, */
    method EnsureRunningAgain(i: nat)
      requires Valid() && i < |loops| && loops[i] == Racing
      modifies this
      ensures Valid() && Snapshot() == Apply(old(Snapshot()), CasAgain(i))
    {
      hide Reachable;
      StepReaches(Snapshot(), CasAgain(i));
      if runningCount == 0 {
        runningCount := 1;
        loops := loops[i := WonAgain];
      } else {
        loops := loops[i := Finished];
      }
    }

    /** and the post. */
    method PostRunLoopAgain(i: nat, ok: bool)
      requires Valid() && i < |loops| && loops[i] == WonAgain && (ok || poolStopped)
      modifies this
      ensures Valid() && Snapshot() == Apply(old(Snapshot()), PostAgain(i, ok))
    {
      hide Reachable;
      StepReaches(Snapshot(), PostAgain(i, ok));
      loops := loops[i := Finished];
      if ok {
        loops := loops + [InPool];
      } else {
        lost := lost + 1;
      }
    }

    /** Shutdown's store, */
    method MarkClosedOnce()
      requires Valid() && !closed
      modifies this
      ensures Valid() && Snapshot() == Apply(old(Snapshot()), MarkClosed)
    {
      hide Reachable;
      StepReaches(Snapshot(), MarkClosed);
      closed := true;
    }

    /** and its fresh queue. */
    method ReplaceQueue()
      requires Valid() && closed && !cleared
      modifies this
      ensures Valid() && Snapshot() == Apply(old(Snapshot()), ClearQueue)
    {
      hide Reachable;
      StepReaches(Snapshot(), ClearQueue);
      cutFrom, cutTo := |executed| + |AsSeq(current)|, |pushed|;
      queue, cleared := [], true;
    }

    /** The pool stops, */
    method PoolStops()
      requires Valid()
      modifies this
      ensures Valid() && Snapshot() == Apply(old(Snapshot()), StopPool)
    {
      hide Reachable;
      StepReaches(Snapshot(), StopPool);
      poolStopped := true;
    }

    /** and drops a runLoop it had queued. */
    method PoolDrops(i: nat)
      requires Valid() && i < |loops| && loops[i] == InPool && poolStopped
      modifies this
      ensures Valid() && Snapshot() == Apply(old(Snapshot()), Event.Discard(i))
    {
      hide Reachable;
      StepReaches(Snapshot(), Event.Discard(i));
      lost := lost + 1;
      loops := loops[i := Discarded];
    }
  }
}
