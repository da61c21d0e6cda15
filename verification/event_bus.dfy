/** The EventBus (eventbus/eventbus.go): Subscribe, Unsubscribe and Publish are
    tasks on one sequenced runner, and a Publish task posts one more task for each
    subscriber. */
module EventBuses {
  import opened Runs
  import opened FifoRunner

  type EventType = nat
  type SubID = nat

  /** A published event and the number of its Publish call. */
  datatype Published = Published(typ: EventType, n: nat)

  datatype Locator = Locator(typ: EventType, index: nat)

  /** The two maps of the bus. A subscriber is known by its ID. */
  datatype Registry = Registry(subs: map<EventType, seq<SubID>>, byID: map<SubID, Locator>)
  {
    /** b.subs[typ], nil when absent */
    function Of(typ: EventType): seq<SubID> { if typ in subs then subs[typ] else [] }
  }

  function AfterSubscribe(r: Registry, typ: EventType, id: SubID): Registry
  {
    var list := r.Of(typ) + [id];
    Registry(r.subs[typ := list], r.byID[id := Locator(typ, |list| - 1)])
  }

  /** The registry after the body of Unsubscribe, and whether the body panicked. */
  function AfterUnsubscribe(r: Registry, id: SubID): (Registry, bool)
  {
    if id !in r.byID then (r, false)
    else
      var loc := r.byID[id];
      var list := r.Of(loc.typ);
      if loc.index >= |list| then (r, true)
      else
        var shorter := list[loc.index := list[|list| - 1]][..|list| - 1];
        if shorter == [] then (Registry(r.subs - {loc.typ}, r.byID - {id}), false)
        else
          var subs := r.subs[loc.typ := shorter];
          if loc.index >= |shorter| then (Registry(subs, r.byID), true)
          else (Registry(subs, r.byID[shorter[loc.index] := loc] - {id}), false)
  }

  // ----- subs and byID -----

  /** The two maps describe the same subscriptions. */
  ghost predicate Agree(r: Registry)
  {
    && (forall id :: id in r.byID ==> Located(r, id))
    && (forall typ, i: nat :: typ in r.subs && i < |r.subs[typ]| ==> Slotted(r, typ, i))
    && (forall typ :: typ in r.subs ==> r.subs[typ] != [])
  }

  /** id is where its locator says. */
  predicate Located(r: Registry, id: SubID)
    requires id in r.byID
  {
    var loc := r.byID[id];
    loc.index < |r.Of(loc.typ)| && r.Of(loc.typ)[loc.index] == id
  }

  /** The locator of the ID in slot i of a list says so. */
  predicate Slotted(r: Registry, typ: EventType, i: nat)
    requires typ in r.subs && i < |r.subs[typ]|
  {
    r.subs[typ][i] in r.byID && r.byID[r.subs[typ][i]] == Locator(typ, i)
  }

  lemma SubscribeKeepsAgreement(r: Registry, typ: EventType, id: SubID)
    requires Agree(r) && id !in r.byID
    ensures Agree(AfterSubscribe(r, typ, id))
  {
    var q := AfterSubscribe(r, typ, id);
    forall x | x in q.byID ensures Located(q, x) {
      assert x != id ==> Located(r, x);
    }
    forall y, i: nat | y in q.subs && i < |q.subs[y]| ensures Slotted(q, y, i) {
      assert y in r.subs && i < |r.subs[y]| ==> Slotted(r, y, i);
    }
  }

  /** id sits in the last of several slots of its list. */
  predicate LastOfSeveral(r: Registry, id: SubID)
  {
    id in r.byID && |r.Of(r.byID[id].typ)| > 1 && r.byID[id].index == |r.Of(r.byID[id].typ)| - 1
  }

  /** Unsubscribe keeps the maps in agreement, and does not panic, exactly when the
      ID is not in the last of several slots. */
  lemma UnsubscribeKeepsAgreementIff(r: Registry, id: SubID)
    requires Agree(r)
    ensures Agree(AfterUnsubscribe(r, id).0) <==> !LastOfSeveral(r, id)
    ensures AfterUnsubscribe(r, id).1 <==> LastOfSeveral(r, id)
  {
    if id in r.byID {
      var q := AfterUnsubscribe(r, id).0;
      var loc := r.byID[id];
      var list := r.subs[loc.typ];
      if LastOfSeveral(r, id) {
        assert q.byID[id] == loc && loc.index >= |q.Of(loc.typ)|;
      } else {
        UnsubscribeAgrees(r, id);
      }
    }
  }

  lemma UnsubscribeAgrees(r: Registry, id: SubID)
    requires Agree(r) && id in r.byID && !LastOfSeveral(r, id)
    ensures Agree(AfterUnsubscribe(r, id).0) && !AfterUnsubscribe(r, id).1
  {
    var q := AfterUnsubscribe(r, id).0;
    var loc := r.byID[id];
    var list := r.subs[loc.typ];
    var moved := list[|list| - 1];
    assert Located(r, id) && Slotted(r, loc.typ, |list| - 1);
    if |list| > 1 {
      var shorter := q.subs[loc.typ];
      assert forall i :: 0 <= i < |shorter| ==> shorter[i] == if i == loc.index then moved else list[i];
    }
    forall x | x in q.byID ensures Located(q, x) {
      assert x != id && Located(r, x);
    }
    forall y, i: nat | y in q.subs && i < |q.subs[y]| ensures Slotted(q, y, i) {
      assert Slotted(r, y, i);
    }
  }

  /** The ID is gone from its list, everybody else stays subscribed, also when the body panics. */
  lemma UnsubscribeRemovesOne(r: Registry, id: SubID)
    requires Agree(r) && id in r.byID
    ensures var loc := r.byID[id]; var q := AfterUnsubscribe(r, id).0;
            && multiset(q.Of(loc.typ)) + multiset{id} == multiset(r.Of(loc.typ))
            && forall typ :: typ != loc.typ ==> q.Of(typ) == r.Of(typ)
  {
    var loc := r.byID[id];
    SwapOut(r.Of(loc.typ), loc.index);
  }

  lemma Swapped(list: seq<SubID>, k: nat, x: SubID)
    requires k < |list|
    ensures multiset(list[k := x]) == multiset(list) - multiset{list[k]} + multiset{x}
  {
  }

  /** Overwriting one slot with the last and cutting the end off takes out that slot's element. */
  lemma SwapOut(list: seq<SubID>, k: nat)
    requires k < |list|
    ensures multiset(list[k := list[|list| - 1]][..|list| - 1]) + multiset{list[k]} == multiset(list)
  {
    var n := |list| - 1;
    var swapped := list[k := list[n]];
    assert swapped == swapped[..n] + [list[n]];
    Swapped(list, k, list[n]);
  }

  /** What the panic leads to: unsubscribing the last of several twice, with another
      Subscribe in between, removes the newcomer. */
  lemma StaleLocatorRemovesAnother(r: Registry, id: SubID, newcomer: SubID)
    requires Agree(r) && LastOfSeveral(r, id) && newcomer !in r.byID
    ensures var typ := r.byID[id].typ;
            var r1 := AfterUnsubscribe(r, id).0;
            var r2 := AfterSubscribe(r1, typ, newcomer);
            var r3 := AfterUnsubscribe(r2, id).0;
            newcomer in r2.Of(typ) && newcomer !in r3.Of(typ)
  {
    var loc := r.byID[id];
    var list := r.subs[loc.typ];
    var r1 := AfterUnsubscribe(r, id).0;
    var r2 := AfterSubscribe(r1, loc.typ, newcomer);
    assert Located(r, id);
    assert r1.Of(loc.typ) == list[..|list| - 1];
    assert r2.Of(loc.typ)[|list| - 1] == newcomer;
    assert AfterUnsubscribe(r2, id).0.Of(loc.typ) == list[..|list| - 1];
    forall i: nat | i < |list| ensures list[i] in r.byID {
      assert Slotted(r, loc.typ, i);
    }
  }

  // ----- the bus on its runner -----

  datatype Task =
    | SubscribeTask(typ: EventType, id: SubID)
    | UnsubscribeTask(id: SubID)
    | DispatchTask(event: Published)
    | HandlerTask(event: Published, sub: SubID)
    | WaitTask                                     // the barrier of WaitIdle

  /** A dispatch task in the middle of its loop over the subscribers. */
  datatype Progress = NoLoop | Loop(event: Published, subs: seq<SubID>, next: nat)

  datatype State = State(
    runner: Fifo<Task>,
    registry: Registry,
    nextID: SubID,
    progress: Progress,
    // history: whether a body of Unsubscribe has panicked, published events, and
    // each dispatched event with the subscriber list its dispatch task found
    panicked: bool,
    published: seq<Published>,
    dispatched: seq<(Published, seq<SubID>)>)

  datatype Event =
    | Subscribe(typ: EventType) | Unsubscribe(id: SubID) | Publish(typ: EventType) | WaitIdle
    | BeginTask | PostHandler | EndTask

  function Init(): State { State(Empty<Task>(), Registry(map[], map[]), 1, NoLoop, false, [], []) }

  predicate Enabled(s: State, e: Event)
  {
    match e
    case Subscribe(_) => true
    case Unsubscribe(_) => true
    case Publish(_) => true
    case WaitIdle => true
    case BeginTask => CanBegin(s.runner)
    case PostHandler => s.progress.Loop? && s.progress.next < |s.progress.subs|
    case EndTask => s.runner.current.Some? && (s.progress.Loop? ==> s.progress.next >= |s.progress.subs|)
  }

  function Start(s: State, t: Task): State
  {
    match t
    case SubscribeTask(typ, id) => s.(registry := AfterSubscribe(s.registry, typ, id))
    case UnsubscribeTask(id) =>
      var (registry, panics) := AfterUnsubscribe(s.registry, id);
      s.(registry := registry, panicked := s.panicked || panics)
    case DispatchTask(event) =>
      var list := s.registry.Of(event.typ);
      s.(progress := Loop(event, list, 0), dispatched := s.dispatched + [(event, list)])
    case HandlerTask(_, _) => s
    case WaitTask => s
  }

  /** Subscribe, Unsubscribe and Publish may come from anywhere, handlers included. */
  function Apply(s: State, e: Event): State
    requires Enabled(s, e)
  {
    match e
    case Subscribe(typ) => s.(runner := Post(s.runner, SubscribeTask(typ, s.nextID)), nextID := s.nextID + 1)
    case Unsubscribe(id) => s.(runner := Post(s.runner, UnsubscribeTask(id)))
    case Publish(typ) =>
      var event := Published(typ, |s.published|);
      s.(runner := Post(s.runner, DispatchTask(event)), published := s.published + [event])
    case WaitIdle => s.(runner := Post(s.runner, WaitTask))
    case BeginTask => Start(s.(runner := Begin(s.runner)), s.runner.waiting[0])
    case PostHandler =>
      var l := s.progress;
      s.(runner := Post(s.runner, HandlerTask(l.event, l.subs[l.next])), progress := l.(next := l.next + 1))
    case EndTask => s.(runner := End(s.runner), progress := NoLoop)
  }

  function Bus(): Machine<State, Event> { Machine(Enabled, Apply) }

  // ----- handler order -----

  function Handlers(ts: seq<Task>): seq<(Published, SubID)>
  {
    if ts == [] then []
    else
      var t := ts[|ts| - 1];
      Handlers(ts[..|ts| - 1]) + if t.HandlerTask? then [(t.event, t.sub)] else []
  }

  function Dispatches(ts: seq<Task>): seq<Published>
  {
    if ts == [] then []
    else
      var t := ts[|ts| - 1];
      Dispatches(ts[..|ts| - 1]) + if t.DispatchTask? then [t.event] else []
  }

  lemma {:induction false} FilterConcat(a: seq<Task>, b: seq<Task>)
    ensures Handlers(a + b) == Handlers(a) + Handlers(b)
    ensures Dispatches(a + b) == Dispatches(a) + Dispatches(b)
  {
    if b == [] {
      assert a + b == a;
    } else {
      assert (a + b)[..|a + b| - 1] == a + b[..|b| - 1];
      FilterConcat(a, b[..|b| - 1]);
    }
  }

  function Pairs(event: Published, subs: seq<SubID>): seq<(Published, SubID)>
  {
    if subs == [] then [] else [(event, subs[0])] + Pairs(event, subs[1..])
  }

  /** Each dispatched event's subscriber list, one after the other. */
  function Expected(ds: seq<(Published, seq<SubID>)>): seq<(Published, SubID)>
  {
    if ds == [] then [] else Expected(ds[..|ds| - 1]) + Pairs(ds[|ds| - 1].0, ds[|ds| - 1].1)
  }

  function EventsOf(ds: seq<(Published, seq<SubID>)>): seq<Published>
  {
    if ds == [] then [] else EventsOf(ds[..|ds| - 1]) + [ds[|ds| - 1].0]
  }

  /** What the dispatch in progress has still to post. */
  function Rest(p: Progress): seq<(Published, SubID)>
  {
    if p.Loop? && p.next <= |p.subs| then Pairs(p.event, p.subs[p.next..]) else []
  }

  /** The tasks whose bodies have begun, in order. */
  function Begun(r: Fifo<Task>): seq<Task> { r.finished + AsSeq(r.current) }

  ghost predicate HandlerInv(s: State)
  {
    && Handlers(s.runner.Log()) + Rest(s.progress) == Expected(s.dispatched)
    && (s.progress.Loop? ==> s.progress.next <= |s.progress.subs| && s.runner.current.Some?)
  }

  ghost predicate DispatchInv(s: State)
  {
    && Dispatches(s.runner.Log()) == s.published
    && Dispatches(Begun(s.runner)) == EventsOf(s.dispatched)
  }

  lemma PostKeepsInv(s: State, t: Task)
    ensures Handlers(Post(s.runner, t).Log()) ==
              Handlers(s.runner.Log()) + if t.HandlerTask? then [(t.event, t.sub)] else []
    ensures Dispatches(Post(s.runner, t).Log()) ==
              Dispatches(s.runner.Log()) + if t.DispatchTask? then [t.event] else []
  {
    LogOnlyGrows(s.runner);
    assert (s.runner.Log() + [t])[..|s.runner.Log()|] == s.runner.Log();
  }

  lemma ClientStep(s: State, e: Event)
    requires HandlerInv(s) && DispatchInv(s) && !e.BeginTask? && !e.EndTask? && Enabled(s, e)
    ensures HandlerInv(Apply(s, e)) && DispatchInv(Apply(s, e))
  {
    hide Handlers, Dispatches, Expected, EventsOf, Rest, HandlerInv, DispatchInv;
    var t := Apply(s, e);
    var task := t.runner.waiting[|s.runner.waiting|];
    assert t.runner == Post(s.runner, task) && t.dispatched == s.dispatched;
    PostKeepsInv(s, task);
    assert Begun(t.runner) == Begun(s.runner);
    if e.PostHandler? {
      RestShrinks(s.progress);
      assert t.progress == s.progress.(next := s.progress.next + 1) && t.published == s.published;
      assert task == HandlerTask(s.progress.event, s.progress.subs[s.progress.next]);
    } else {
      assert t.progress == s.progress && !task.HandlerTask?;
      assert t.published == s.published + if task.DispatchTask? then [task.event] else [];
    }
    hide Apply, Enabled, Begun;
    Reposted(s, t, task);
  }

  lemma Reposted(s: State, t: State, task: Task)
    requires HandlerInv(s) && DispatchInv(s) && t.dispatched == s.dispatched
    requires Begun(t.runner) == Begun(s.runner) && t.runner.current == s.runner.current
    requires Handlers(t.runner.Log()) ==
               Handlers(s.runner.Log()) + if task.HandlerTask? then [(task.event, task.sub)] else []
    requires Dispatches(t.runner.Log()) == Dispatches(s.runner.Log()) + if task.DispatchTask? then [task.event] else []
    requires t.published == s.published + if task.DispatchTask? then [task.event] else []
    requires if task.HandlerTask?
             then && s.progress.Loop? && t.progress == s.progress.(next := s.progress.next + 1)
                  && t.progress.next <= |t.progress.subs|
                  && Rest(s.progress) == [(task.event, task.sub)] + Rest(t.progress)
             else t.progress == s.progress
    ensures HandlerInv(t) && DispatchInv(t)
  {
    hide Handlers, Dispatches, Expected, EventsOf, Rest, Begun;
    if task.HandlerTask? {
      Regroup(Handlers(s.runner.Log()), [(task.event, task.sub)], Rest(t.progress));
    }
  }

  lemma Regroup<T>(a: seq<T>, b: seq<T>, c: seq<T>)
    ensures (a + b) + c == a + (b + c)
  {
  }

  lemma RestShrinks(p: Progress)
    requires p.Loop? && p.next < |p.subs|
    ensures Rest(p) == [(p.event, p.subs[p.next])] + Rest(p.(next := p.next + 1))
  {
    assert p.subs[p.next..][1..] == p.subs[p.next + 1..];
  }

  lemma OneMoreDispatched(ds: seq<(Published, seq<SubID>)>, event: Published, list: seq<SubID>)
    ensures Expected(ds + [(event, list)]) == Expected(ds) + Pairs(event, list)
    ensures EventsOf(ds + [(event, list)]) == EventsOf(ds) + [event]
    ensures Rest(Loop(event, list, 0)) == Pairs(event, list)
  {
    assert (ds + [(event, list)])[..|ds|] == ds;
    assert list[0..] == list;
  }

  lemma OneMoreBegun(r: Fifo<Task>)
    requires CanBegin(r)
    ensures Begin(r).Log() == r.Log() && Begun(Begin(r)) == Begun(r) + [r.waiting[0]]
    ensures Dispatches(Begun(Begin(r))) ==
              Dispatches(Begun(r)) + if r.waiting[0].DispatchTask? then [r.waiting[0].event] else []
  {
    LogOnlyGrows(r);
    FilterConcat(Begun(r), [r.waiting[0]]);
    assert [r.waiting[0]][..0] == [];
  }

  lemma BeginStep(s: State)
    requires HandlerInv(s) && DispatchInv(s) && Enabled(s, BeginTask)
    ensures HandlerInv(Apply(s, BeginTask)) && DispatchInv(Apply(s, BeginTask))
  {
    hide Handlers, Dispatches, Expected, EventsOf, Pairs, Begun, AfterSubscribe, AfterUnsubscribe;
    var task := s.runner.waiting[0];
    OneMoreBegun(s.runner);
    assert s.progress == NoLoop && Rest(s.progress) == [];
    if task.DispatchTask? {
      OneMoreDispatched(s.dispatched, task.event, s.registry.Of(task.event.typ));
    }
  }

  lemma EndStep(s: State)
    requires HandlerInv(s) && DispatchInv(s) && Enabled(s, EndTask)
    ensures HandlerInv(Apply(s, EndTask)) && DispatchInv(Apply(s, EndTask))
  {
    LogOnlyGrows(s.runner);
    assert Begun(End(s.runner)) == Begun(s.runner);
    if s.progress.Loop? {
      assert s.progress.subs[s.progress.next..] == [];
    }
  }

  // ----- the registry over a run -----

  /** Subscribe tasks carry fresh IDs, and the maps agree until a body panics. */
  ghost predicate RegistryInv(s: State)
  {
    && (forall i :: 0 <= i < |s.runner.waiting| && s.runner.waiting[i].SubscribeTask? ==>
          s.runner.waiting[i].id < s.nextID)
    && (forall i, k ::
          && 0 <= i < k < |s.runner.waiting|
          && s.runner.waiting[i].SubscribeTask? && s.runner.waiting[k].SubscribeTask? ==>
          s.runner.waiting[i].id < s.runner.waiting[k].id)
    && (!s.panicked ==>
          && Agree(s.registry)
          && (forall id :: id in s.registry.byID ==> id < s.nextID)
          && (forall i :: 0 <= i < |s.runner.waiting| && s.runner.waiting[i].SubscribeTask? ==>
                s.runner.waiting[i].id !in s.registry.byID))
  }

  lemma UnsubscribeAddsNone(r: Registry, id: SubID)
    requires Agree(r)
    ensures AfterUnsubscribe(r, id).0.byID.Keys <= r.byID.Keys
  {
    if id in r.byID {
      var typ := r.byID[id].typ;
      assert Located(r, id) && Slotted(r, typ, |r.subs[typ]| - 1);
    }
  }

  lemma BeginKeepsRegistry(s: State)
    requires RegistryInv(s) && Enabled(s, BeginTask)
    ensures RegistryInv(Apply(s, BeginTask))
  {
    var t, task := Apply(s, BeginTask), s.runner.waiting[0];
    if !t.panicked {
      if task.SubscribeTask? {
        SubscribeKeepsAgreement(s.registry, task.typ, task.id);
      } else if task.UnsubscribeTask? {
        UnsubscribeKeepsAgreementIff(s.registry, task.id);
        UnsubscribeAddsNone(s.registry, task.id);
      }
    }
    hide Agree, AfterSubscribe, AfterUnsubscribe;
    assert t.runner.waiting == s.runner.waiting[1..];
    assert task.SubscribeTask? && !t.panicked ==> t.registry.byID.Keys == s.registry.byID.Keys + {task.id} by {
      SubscribeAddsOne(s.registry, task);
    }
  }

  lemma SubscribeAddsOne(r: Registry, task: Task)
    ensures task.SubscribeTask? ==> AfterSubscribe(r, task.typ, task.id).byID.Keys == r.byID.Keys + {task.id}
  {
  }

  lemma OthersKeepRegistry(s: State, e: Event)
    requires RegistryInv(s) && Enabled(s, e) && !e.BeginTask?
    ensures RegistryInv(Apply(s, e))
  {
  }

  ghost predicate Inv(s: State) { HandlerInv(s) && DispatchInv(s) && RegistryInv(s) }

  lemma StepKeepsInv(s: State, e: Event)
    requires Inv(s) && Enabled(s, e)
    ensures Inv(Apply(s, e))
  {
    hide HandlerInv, DispatchInv, RegistryInv, Apply;
    if e.BeginTask? {
      BeginStep(s);
      BeginKeepsRegistry(s);
    } else {
      OthersKeepRegistry(s, e);
      if e.EndTask? { EndStep(s); } else { ClientStep(s, e); }
    }
  }

  ghost predicate Reachable(s: State) { Bus().Reaches(Init(), s) }

  lemma ReachableInv(s: State)
    requires Reachable(s)
    ensures Inv(s)
  {
    assert Inv(Init());
    hide Inv, Enabled, Apply, Init;
    forall s, e | Inv(s) && Enabled(s, e) ensures Inv(Apply(s, e)) {
      StepKeepsInv(s, e);
    }
    InvariantReached(Bus(), s => Inv(s), Init(), s);
  }

  /** Over a whole run, with calls from anywhere: the two maps describe the same
      subscriptions as long as no body of Unsubscribe has panicked. */
  lemma RegistryAgreesUntilPanic(s: State)
    requires Reachable(s) && !s.panicked
    ensures Agree(s.registry)
  {
    ReachableInv(s);
  }

  /** Events are dispatched in publish order, the handlers that have begun are a prefix
      of the lists dispatched one after the other, and once the runner is idle they are
      all of it, for every published event. */
  lemma HandlersFollowDispatches(s: State)
    requires Reachable(s)
    ensures EventsOf(s.dispatched) <= s.published
    ensures Handlers(Begun(s.runner)) <= Expected(s.dispatched)
    ensures s.runner.Idle() ==>
              EventsOf(s.dispatched) == s.published && Handlers(s.runner.finished) == Expected(s.dispatched)
  {
    ReachableInv(s);
    FilterConcat(Begun(s.runner), s.runner.waiting);
    assert s.runner.Log() == Begun(s.runner) + s.runner.waiting;
    assert Handlers(s.runner.Log()) == Handlers(Begun(s.runner)) + Handlers(s.runner.waiting);
    if s.runner.Idle() {
      assert Begun(s.runner) == s.runner.finished == s.runner.Log();
    }
  }

  // ----- what two WaitIdle calls cover -----

  /** A loop over subscribers belongs to the dispatch task in hand, the last dispatched. */
  ghost predicate LoopInv(s: State)
  {
    s.progress.Loop? ==>
      && s.runner.current.Some? && s.runner.current.value.DispatchTask? && s.dispatched != []
      && s.dispatched[|s.dispatched| - 1] == (s.progress.event, s.progress.subs)
  }

  /** t is s or later: nothing posted, begun, published or dispatched is taken back. */
  ghost predicate Later(s: State, t: State)
  {
    && s.runner.Log() <= t.runner.Log() && Begun(s.runner) <= Begun(t.runner)
    && s.published <= t.published && s.dispatched <= t.dispatched
  }

  ghost predicate Follows(s: State, t: State) { Inv(t) && LoopInv(t) && Later(s, t) }

  lemma LoopStays(s: State, e: Event)
    requires LoopInv(s) && Inv(s) && Enabled(s, e)
    ensures LoopInv(Apply(s, e))
  {
    hide Inv, AfterSubscribe, AfterUnsubscribe;
  }

  lemma StepIsLater(s: State, e: Event)
    requires Enabled(s, e)
    ensures Later(s, Apply(s, e))
  {
    hide AfterSubscribe, AfterUnsubscribe;
    LogOnlyGrows(s.runner);
    var t := Apply(s, e);
    if e.BeginTask? {
      assert Begun(t.runner) == Begun(s.runner) + [s.runner.waiting[0]];
    } else if e.EndTask? {
      assert Begun(t.runner) == Begun(s.runner);
    }
  }

  lemma LaterFollows(s: State, t: State)
    requires Inv(s) && LoopInv(s) && Bus().Reaches(s, t)
    ensures Follows(s, t)
  {
    hide Inv, LoopInv, Enabled, Apply;
    forall u, e | Follows(s, u) && Enabled(u, e) ensures Follows(s, Apply(u, e)) {
      StepKeepsInv(u, e);
      LoopStays(u, e);
      StepIsLater(u, e);
    }
    InvariantReached(Bus(), u => Follows(s, u), s, t);
  }

  lemma ReachableLoopInv(s: State)
    requires Reachable(s)
    ensures Inv(s) && LoopInv(s)
  {
    assert Inv(Init()) && LoopInv(Init());
    hide Inv, LoopInv;
    LaterFollows(Init(), s);
  }

  /** A call of WaitIdle: the state in which it posts and one in which it has returned nil. */
  datatype Call = Call(posted: State, done: State)
  {
    /** Its barrier task, the next in the log, has begun and closed the channel. */
    ghost predicate Succeeded()
    {
      && Bus().Reaches(Apply(posted, Event.WaitIdle), done)
      && |Begun(done.runner)| > |posted.runner.Log()|
    }
  }

  /** What was posted before a successful call has finished. */
  lemma CallCovers(c: Call)
    requires Inv(c.posted) && LoopInv(c.posted) && c.Succeeded()
    ensures Follows(c.posted, c.done) && c.posted.runner.Log() <= c.done.runner.finished
  {
    var u := Apply(c.posted, Event.WaitIdle);
    StepKeepsInv(c.posted, Event.WaitIdle);
    LoopStays(c.posted, Event.WaitIdle);
    StepIsLater(c.posted, Event.WaitIdle);
    LaterFollows(u, c.done);
    assert c.done.runner.finished <= c.done.runner.Log();
  }

  lemma FilterPrefix(a: seq<Task>, b: seq<Task>)
    requires a <= b
    ensures Handlers(a) <= Handlers(b) && Dispatches(a) <= Dispatches(b)
  {
    assert b == a + b[|a|..];
    FilterConcat(a, b[|a|..]);
  }

  lemma {:induction false} ExpectedPrefix(ds: seq<(Published, seq<SubID>)>, n: nat)
    requires n <= |ds|
    ensures Expected(ds[..n]) <= Expected(ds) && EventsOf(ds[..n]) <= EventsOf(ds)
    ensures |EventsOf(ds)| == |ds|
    decreases |ds|
  {
    if n < |ds| {
      var m := |ds| - 1;
      assert ds[..m][..n] == ds[..n];
      ExpectedPrefix(ds[..m], n);
    } else {
      assert ds[..n] == ds;
      if ds != [] {
        ExpectedPrefix(ds[..n - 1], n - 1);
      }
    }
  }

  lemma {:induction false} PairsAreMany(event: Published, subs: seq<SubID>)
    ensures |Pairs(event, subs)| == |subs|
  {
    if subs != [] {
      PairsAreMany(event, subs[1..]);
    }
  }

  lemma ShorterRest<T>(h: seq<T>, rest: seq<T>, x: seq<T>, y: seq<T>)
    requires h + rest == x + y && |rest| <= |y|
    ensures x <= h
  {
    assert h == (h + rest)[..|h|];
    assert x == (x + y)[..|x|];
  }

  /** Of the events dispatched by finished tasks every handler task has been posted. */
  lemma FinishedDispatchesHavePosted(s: State, n: nat)
    requires Inv(s) && LoopInv(s) && n <= |Dispatches(s.runner.finished)|
    ensures n <= |s.dispatched| && Expected(s.dispatched[..n]) <= Handlers(s.runner.Log())
  {
    hide RegistryInv, Handlers, Dispatches, EventsOf;
    var ds, m := s.dispatched, |s.dispatched|;
    FilterConcat(s.runner.finished, AsSeq(s.runner.current));
    ExpectedPrefix(ds, m);
    if s.progress.Loop? {
      hide DispatchInv;
      OneDispatch(s.runner.current.value);
      ExpectedPrefix(ds[..m - 1], n);
      assert ds[..m - 1][..n] == ds[..n];
      LoopHasPosted(s);
    } else {
      ExpectedPrefix(ds, n);
    }
  }

  lemma LoopHasPosted(s: State)
    requires HandlerInv(s) && LoopInv(s) && s.progress.Loop?
    ensures s.dispatched != [] && Expected(s.dispatched[..|s.dispatched| - 1]) <= Handlers(s.runner.Log())
  {
    hide Handlers;
    var ds, m, l := s.dispatched, |s.dispatched|, s.progress;
    PairsAreMany(l.event, l.subs);
    PairsAreMany(l.event, l.subs[l.next..]);
    assert Expected(ds) == Expected(ds[..m - 1]) + Pairs(l.event, l.subs);
    ShorterRest(Handlers(s.runner.Log()), Rest(l), Expected(ds[..m - 1]), Pairs(l.event, l.subs));
  }

  lemma OneDispatch(t: Task)
    requires t.DispatchTask?
    ensures Dispatches([t]) == [t.event]
  {
    assert [t][..0] == [];
  }

  /** Two back-to-back successful WaitIdle calls cover a dispatch and its handlers:
      every event published before the first call has been dispatched, and all its
      handlers have run, when the second call returns. */
  lemma TwoWaitsCoverHandlers(first: Call, second: Call)
    requires Reachable(first.posted) && first.Succeeded()
    requires Bus().Reaches(first.done, second.posted) && second.Succeeded()
    ensures var n := |first.posted.published|;
            && n <= |second.done.dispatched| && EventsOf(second.done.dispatched[..n]) == first.posted.published
            && Expected(second.done.dispatched[..n]) <= Handlers(second.done.runner.finished)
  {
    hide Inv, LoopInv, Expected, EventsOf, Handlers, Dispatches, Enabled, Apply, Begun;
    var a, b, c, d := first.posted, first.done, second.posted, second.done;
    ReachableLoopInv(a);
    CallCovers(first);
    LaterFollows(b, c);
    CallCovers(second);
    var n := |a.published|;
    FirstWaitCovers(a, b);
    FinishedDispatchesHavePosted(b, n);
    assert d.dispatched[..n] == b.dispatched[..n];
    FilterPrefix(b.runner.Log(), d.runner.finished);
  }

  lemma FirstWaitCovers(a: State, b: State)
    requires Inv(a) && Follows(a, b) && a.runner.Log() <= b.runner.finished
    ensures var n := |a.published|;
            n <= |Dispatches(b.runner.finished)| && n <= |b.dispatched| && EventsOf(b.dispatched[..n]) == a.published
  {
    FilterPrefix(a.runner.Log(), b.runner.finished);
    FilterPrefix(b.runner.finished, Begun(b.runner));
    ExpectedPrefix(b.dispatched, |b.dispatched|);
    ExpectedPrefix(b.dispatched, |a.published|);
    ExpectedPrefix(b.dispatched[..|a.published|], |a.published|);
  }

  // ----- the bus itself -----

  lemma Next(s: State, e: Event)
    requires Reachable(s) && Enabled(s, e)
    ensures Reachable(Apply(s, e))
  {
    hide Enabled, Apply, Init;
    ReachesNext(Bus(), Init(), s, e);
  }

  class EventBus {
    var runner: Fifo<Task>
    var subs: map<EventType, seq<SubID>>
    var byID: map<SubID, Locator>
    var nextID: SubID
    var progress: Progress
    ghost var panicked: bool
    ghost var published: seq<Published>
    ghost var dispatched: seq<(Published, seq<SubID>)>
    var publishCalls: nat

    ghost function Snapshot(): State
      reads this
    {
      State(runner, Registry(subs, byID), nextID, progress, panicked, published, dispatched)
    }

    /** The fields are those of a reachable state, so everything above holds of them. */
    ghost predicate Valid()
      reads this
    {
      Reachable(Snapshot()) && publishCalls == |published|
    }

    constructor ()
      ensures Valid() && Snapshot() == Init()
    {
      runner, subs, byID, nextID, progress := Empty(), map[], map[], 1, NoLoop;
      panicked, published, dispatched, publishCalls := false, [], [], 0;
      new;
      ReachesItself(Bus(), Init());
    }

    method Subscribe(typ: EventType) returns (id: SubID)
      requires Valid()
      modifies this
      ensures Valid() && id == old(nextID) && Snapshot() == Apply(old(Snapshot()), Event.Subscribe(typ))
    {
      Next(Snapshot(), Event.Subscribe(typ));
      id := nextID;
      nextID := nextID + 1;
      runner := Post(runner, SubscribeTask(typ, id));
    }

    method Unsubscribe(id: SubID)
      requires Valid()
      modifies this
      ensures Valid() && Snapshot() == Apply(old(Snapshot()), Event.Unsubscribe(id))
    {
      Next(Snapshot(), Event.Unsubscribe(id));
      runner := Post(runner, UnsubscribeTask(id));
    }

    method Publish(typ: EventType)
      requires Valid()
      modifies this
      ensures Valid() && Snapshot() == Apply(old(Snapshot()), Event.Publish(typ))
    {
      Next(Snapshot(), Event.Publish(typ));
      var event := Published(typ, publishCalls);
      publishCalls, published := publishCalls + 1, published + [event];
      runner := Post(runner, DispatchTask(event));
    }

    /** WaitIdle posts its barrier task. */
    method PostWait()
      requires Valid()
      modifies this
      ensures Valid() && Snapshot() == Apply(old(Snapshot()), Event.WaitIdle)
    {
      Next(Snapshot(), Event.WaitIdle);
      runner := Post(runner, WaitTask);
    }

    /** The body that Subscribe posts. */
    method SubscribeBody(typ: EventType, id: SubID)
      modifies this`subs, this`byID
      ensures Registry(subs, byID) == AfterSubscribe(old(Registry(subs, byID)), typ, id)
    {
      var list := if typ in subs then subs[typ] else [];
      subs := subs[typ := list + [id]];
      byID := byID[id := Locator(typ, |subs[typ]| - 1)];
    }

    /** The body that Unsubscribe posts: swap with the last, cut, put the moved one's
        locator right, drop the ID. An index out of range panics midway. */
    method UnsubscribeBody(id: SubID) returns (panics: bool)
      modifies this`subs, this`byID
      ensures (Registry(subs, byID), panics) == AfterUnsubscribe(old(Registry(subs, byID)), id)
    {
      if id !in byID {
        return false;
      }
      var loc := byID[id];
      var list := if loc.typ in subs then subs[loc.typ] else [];
      if loc.index >= |list| {
        return true;
      }
      list := list[loc.index := list[|list| - 1]];
      list := list[..|list| - 1];
      if |list| == 0 {
        subs := subs - {loc.typ};
      } else {
        subs := subs[loc.typ := list];
        if loc.index >= |list| {
          return true;
        }
        byID := byID[list[loc.index] := loc];
      }
      byID := byID - {id};
      return false;
    }

    /** The runner begins its next task: a whole body, or the head of a dispatch loop. */
    method BeginNext()
      requires Valid() && CanBegin(runner)
      modifies this
      ensures Valid() && Snapshot() == Apply(old(Snapshot()), BeginTask)
    {
      hide AfterSubscribe, AfterUnsubscribe, Reachable;
      Next(Snapshot(), BeginTask);
      var task := runner.waiting[0];
      runner := Begin(runner);
      match task {
        case SubscribeTask(typ, id) => SubscribeBody(typ, id);
        case UnsubscribeTask(id) =>
          var panics := UnsubscribeBody(id);
          panicked := panicked || panics;
        case DispatchTask(event) =>
          var list := if event.typ in subs then subs[event.typ] else [];
          progress := Loop(event, list, 0);
          dispatched := dispatched + [(event, list)];
        case HandlerTask(_, _) =>
        case WaitTask =>
      }
    }

    /** One turn of the loop over the subscribers. */
    method PostNextHandler()
      requires Valid() && progress.Loop? && progress.next < |progress.subs|
      modifies this
      ensures Valid() && Snapshot() == Apply(old(Snapshot()), PostHandler)
    {
      Next(Snapshot(), PostHandler);
      runner := Post(runner, HandlerTask(progress.event, progress.subs[progress.next]));
      progress := Loop(progress.event, progress.subs, progress.next + 1);
    }

    method EndCurrent()
      requires Valid() && Enabled(Snapshot(), EndTask)
      modifies this
      ensures Valid() && Snapshot() == Apply(old(Snapshot()), EndTask)
    {
      Next(Snapshot(), EndTask);
      runner, progress := End(runner), NoLoop;
    }
  }
}
