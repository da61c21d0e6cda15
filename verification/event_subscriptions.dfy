/** Who hears a published event (eventbus/eventbus.go): the subscriber lists of the
    EventBus, read off its runner's log of tasks alone. */
module EventSubscriptions {
  import opened Runs
  import opened FifoRunner
  import opened EventBuses

  /** Among the first p tasks of the log, id was subscribed to typ and not unsubscribed since. */
  ghost predicate Subscribed(log: seq<Task>, p: nat, typ: EventType, id: SubID)
    requires p <= |log|
  {
    exists i: nat :: i < p && log[i] == SubscribeTask(typ, id) && Undisturbed(log, i, p, id)
  }

  ghost predicate Undisturbed(log: seq<Task>, i: nat, p: nat, id: SubID)
    requires i <= p <= |log|
  {
    forall k :: i <= k < p ==> log[k] != UnsubscribeTask(id)
  }

  /** The list has each subscriber as of position p of the log once, and nobody else. */
  ghost predicate IsList(log: seq<Task>, p: nat, typ: EventType, list: seq<SubID>)
    requires p <= |log|
  {
    && (forall id :: id in list <==> Subscribed(log, p, typ, id))
    && (forall i, k :: 0 <= i < k < |list| ==> list[i] != list[k])
  }

  lemma SubscribedBefore(log: seq<Task>, t: Task, p: nat, typ: EventType, id: SubID)
    requires p <= |log|
    ensures Subscribed(log + [t], p, typ, id) <==> Subscribed(log, p, typ, id)
  {
    var more := log + [t];
    if Subscribed(log, p, typ, id) {
      var i: nat :| i < p && log[i] == SubscribeTask(typ, id) && Undisturbed(log, i, p, id);
      assert more[i] == SubscribeTask(typ, id) && Undisturbed(more, i, p, id);
    }
    if Subscribed(more, p, typ, id) {
      var i: nat :| i < p && more[i] == SubscribeTask(typ, id) && Undisturbed(more, i, p, id);
      assert log[i] == SubscribeTask(typ, id);
      forall k | i <= k < p ensures log[k] != UnsubscribeTask(id) {
        assert more[k] == log[k];
      }
      assert Undisturbed(log, i, p, id);
    }
  }

  /** One more task: it subscribes, unsubscribes or leaves the subscription alone. */
  lemma SubscribedNext(log: seq<Task>, t: Task, typ: EventType, id: SubID)
    ensures Subscribed(log + [t], |log| + 1, typ, id) <==>
              t == SubscribeTask(typ, id) || (Subscribed(log, |log|, typ, id) && t != UnsubscribeTask(id))
  {
    var more, n := log + [t], |log|;
    if t == SubscribeTask(typ, id) {
      assert more[n] == t && Undisturbed(more, n, n + 1, id);
    }
    if Subscribed(log, n, typ, id) && t != UnsubscribeTask(id) {
      var i: nat :| i < n && log[i] == SubscribeTask(typ, id) && Undisturbed(log, i, n, id);
      assert more[i] == SubscribeTask(typ, id) && Undisturbed(more, i, n + 1, id);
    }
    if Subscribed(more, n + 1, typ, id) && t != SubscribeTask(typ, id) {
      var i: nat :| i < n + 1 && more[i] == SubscribeTask(typ, id) && Undisturbed(more, i, n + 1, id);
      assert i < n && more[n] == t != UnsubscribeTask(id);
      forall k | i <= k < n ensures log[k] != UnsubscribeTask(id) {
        assert more[k] == log[k];
      }
      assert log[i] == SubscribeTask(typ, id) && Undisturbed(log, i, n, id);
    }
  }

  // ----- the registry follows the log -----

  ghost predicate Follows(r: Registry, log: seq<Task>)
  {
    forall typ, id :: id in r.Of(typ) <==> Subscribed(log, |log|, typ, id)
  }

  lemma ListedOnce(r: Registry, typ: EventType, i: nat, k: nat)
    requires Agree(r) && i < |r.Of(typ)| && k < |r.Of(typ)| && r.Of(typ)[i] == r.Of(typ)[k]
    ensures i == k && r.Of(typ)[i] in r.byID && r.byID[r.Of(typ)[i]] == Locator(typ, i)
  {
    assert Slotted(r, typ, i) && Slotted(r, typ, k);
  }

  lemma SubscribeFollows(r: Registry, log: seq<Task>, typ: EventType, id: SubID)
    requires Follows(r, log)
    ensures Follows(AfterSubscribe(r, typ, id), log + [SubscribeTask(typ, id)])
  {
    var q, more := AfterSubscribe(r, typ, id), log + [SubscribeTask(typ, id)];
    forall y, x ensures x in q.Of(y) <==> Subscribed(more, |more|, y, x) {
      SubscribedNext(log, SubscribeTask(typ, id), y, x);
      assert q.Of(typ) == r.Of(typ) + [id] && (y != typ ==> q.Of(y) == r.Of(y));
    }
  }

  /** id is in no list but the one its locator names. */
  lemma OnlyWhereLocated(r: Registry, typ: EventType, id: SubID)
    requires Agree(r) && id in r.Of(typ)
    ensures id in r.byID && r.byID[id].typ == typ
  {
    var i :| 0 <= i < |r.Of(typ)| && r.Of(typ)[i] == id;
    ListedOnce(r, typ, i, i);
  }

  lemma {:induction false} CountOnce(list: seq<SubID>, id: SubID)
    requires forall i, k :: 0 <= i < k < |list| ==> list[i] != list[k]
    ensures multiset(list)[id] == if id in list then 1 else 0
  {
    if list != [] {
      var n := |list| - 1;
      CountOnce(list[..n], id);
      assert list == list[..n] + [list[n]];
    }
  }

  lemma UnsubscribeMembers(r: Registry, id: SubID, typ: EventType, x: SubID)
    requires Agree(r) && !LastOfSeveral(r, id)
    ensures x in AfterUnsubscribe(r, id).0.Of(typ) <==> x in r.Of(typ) && x != id
  {
    if id !in r.byID {
      if x in r.Of(typ) {
        OnlyWhereLocated(r, typ, x);
      }
    } else {
      UnsubscribeRemovesOne(r, id);
      hide AfterUnsubscribe, LastOfSeveral;
      var loc, q := r.byID[id], AfterUnsubscribe(r, id).0;
      if typ == loc.typ {
        forall i, k | 0 <= i < k < |r.Of(typ)| ensures r.Of(typ)[i] != r.Of(typ)[k] {
          if r.Of(typ)[i] == r.Of(typ)[k] { ListedOnce(r, typ, i, k); }
        }
        CountOnce(r.Of(typ), id);
        Removed(q.Of(typ), r.Of(typ), id, x);
      } else if x in r.Of(typ) {
        OnlyWhereLocated(r, typ, x);
      }
    }
  }

  lemma Removed(fewer: seq<SubID>, list: seq<SubID>, id: SubID, x: SubID)
    requires multiset(fewer) + multiset{id} == multiset(list) && multiset(list)[id] <= 1
    ensures x in fewer <==> x in list && x != id
  {
    assert x in fewer <==> multiset(fewer)[x] > 0;
    assert x in list <==> multiset(list)[x] > 0;
  }

  lemma UnsubscribeFollows(r: Registry, log: seq<Task>, id: SubID)
    requires Agree(r) && !LastOfSeveral(r, id) && Follows(r, log)
    ensures Follows(AfterUnsubscribe(r, id).0, log + [UnsubscribeTask(id)])
  {
    var q, more := AfterUnsubscribe(r, id).0, log + [UnsubscribeTask(id)];
    hide AfterUnsubscribe, Agree, LastOfSeveral;
    forall y, x ensures x in q.Of(y) <==> Subscribed(more, |more|, y, x) {
      SubscribedNext(log, UnsubscribeTask(id), y, x);
      UnsubscribeMembers(r, id, y, x);
    }
  }

  lemma OtherFollows(r: Registry, log: seq<Task>, t: Task)
    requires Follows(r, log) && !t.SubscribeTask? && !t.UnsubscribeTask?
    ensures Follows(r, log + [t])
  {
    forall y, x ensures x in r.Of(y) <==> Subscribed(log + [t], |log + [t]|, y, x) {
      SubscribedNext(log, t, y, x);
    }
  }

  // ----- so does every list dispatched -----

  /** The dispatch stands in the log where its list was the right one. */
  ghost predicate Found(log: seq<Task>, d: (Published, seq<SubID>))
  {
    exists p: nat :: p < |log| && log[p] == DispatchTask(d.0) && IsList(log, p, d.0.typ, d.1)
  }

  lemma FoundStays(log: seq<Task>, t: Task, d: (Published, seq<SubID>))
    requires Found(log, d)
    ensures Found(log + [t], d)
  {
    var p: nat :| p < |log| && log[p] == DispatchTask(d.0) && IsList(log, p, d.0.typ, d.1);
    forall id ensures id in d.1 <==> Subscribed(log + [t], p, d.0.typ, id) {
      SubscribedBefore(log, t, p, d.0.typ, id);
    }
    assert (log + [t])[p] == DispatchTask(d.0) && IsList(log + [t], p, d.0.typ, d.1);
  }

  lemma FoundNow(r: Registry, log: seq<Task>, event: Published)
    requires Agree(r) && Follows(r, log)
    ensures Found(log + [DispatchTask(event)], (event, r.Of(event.typ)))
  {
    var list, n, more := r.Of(event.typ), |log|, log + [DispatchTask(event)];
    forall i, k | 0 <= i < k < |list| ensures list[i] != list[k] {
      if list[i] == list[k] { ListedOnce(r, event.typ, i, k); }
    }
    forall id ensures id in list <==> Subscribed(more, n, event.typ, id) {
      SubscribedBefore(log, DispatchTask(event), n, event.typ, id);
    }
    assert more[n] == DispatchTask(event) && IsList(more, n, event.typ, list);
  }

  ghost predicate SubsInv(s: State)
  {
    !s.panicked ==>
      && Follows(s.registry, Begun(s.runner))
      && forall k :: 0 <= k < |s.dispatched| ==> Found(Begun(s.runner), s.dispatched[k])
  }

  lemma BeginsOne(s: State)
    requires Enabled(s, BeginTask)
    ensures Begun(Apply(s, BeginTask).runner) == Begun(s.runner) + [s.runner.waiting[0]]
  {
    hide AfterSubscribe, AfterUnsubscribe;
  }

  lemma BeginFollows(s: State)
    requires Inv(s) && SubsInv(s) && Enabled(s, BeginTask) && !Apply(s, BeginTask).panicked
    ensures Follows(Apply(s, BeginTask).registry, Begun(s.runner) + [s.runner.waiting[0]])
  {
    var r, log, task := s.registry, Begun(s.runner), s.runner.waiting[0];
    if task.SubscribeTask? {
      hide AfterUnsubscribe, AfterSubscribe, Follows, Begun, Inv;
      SubscribeFollows(r, log, task.typ, task.id);
    } else if task.UnsubscribeTask? {
      UnsubscribeKeepsAgreementIff(r, task.id);
      hide AfterUnsubscribe, AfterSubscribe, Follows, Begun, LastOfSeveral;
      UnsubscribeFollows(r, log, task.id);
    } else {
      hide AfterUnsubscribe, AfterSubscribe, Follows, Begun, Inv;
      OtherFollows(r, log, task);
    }
  }

  lemma BeginFinds(s: State, k: nat)
    requires Inv(s) && SubsInv(s) && Enabled(s, BeginTask) && !Apply(s, BeginTask).panicked
    requires k < |Apply(s, BeginTask).dispatched|
    ensures Found(Begun(s.runner) + [s.runner.waiting[0]], Apply(s, BeginTask).dispatched[k])
  {
    hide AfterUnsubscribe, AfterSubscribe, Follows, Begun, Found, HandlerInv, DispatchInv;
    var log, task := Begun(s.runner), s.runner.waiting[0];
    if k < |s.dispatched| {
      assert Apply(s, BeginTask).dispatched[k] == s.dispatched[k];
      FoundStays(log, task, s.dispatched[k]);
    } else {
      FoundNow(s.registry, log, task.event);
    }
  }

  lemma BeginKeepsSubs(s: State)
    requires Inv(s) && SubsInv(s) && Enabled(s, BeginTask)
    ensures SubsInv(Apply(s, BeginTask))
  {
    BeginsOne(s);
    var t := Apply(s, BeginTask);
    hide Inv, SubsInv, Begun, Follows, Found, Apply, Enabled;
    if !t.panicked {
      BeginFollows(s);
      forall k: nat | k < |t.dispatched| ensures Found(Begun(t.runner), t.dispatched[k]) {
        BeginFinds(s, k);
      }
    }
    SubsMean(t);
  }

  lemma SubsMean(t: State)
    requires !t.panicked ==>
               && Follows(t.registry, Begun(t.runner))
               && forall k: nat :: k < |t.dispatched| ==> Found(Begun(t.runner), t.dispatched[k])
    ensures SubsInv(t)
  {
  }

  lemma OthersKeepSubs(s: State, e: Event)
    requires SubsInv(s) && Enabled(s, e) && !e.BeginTask?
    ensures SubsInv(Apply(s, e))
  {
    var t := Apply(s, e);
    assert Begun(t.runner) == Begun(s.runner) && t.panicked == s.panicked;
    assert t.registry == s.registry && t.dispatched == s.dispatched;
    hide Begun, Follows, Found, Apply;
  }

  ghost predicate InvAndSubs(s: State) { Inv(s) && SubsInv(s) }

  lemma StepKeepsSubs(s: State, e: Event)
    requires InvAndSubs(s) && Enabled(s, e)
    ensures InvAndSubs(Apply(s, e))
  {
    hide Inv, SubsInv, Enabled, Apply;
    StepKeepsInv(s, e);
    if e.BeginTask? { BeginKeepsSubs(s); } else { OthersKeepSubs(s, e); }
  }

  lemma InitSubs()
    ensures InvAndSubs(Init())
  {
  }

  lemma ReachableSubs(s: State)
    requires Reachable(s)
    ensures InvAndSubs(s)
  {
    InitSubs();
    hide InvAndSubs, Enabled, Apply, Init;
    forall s, e | InvAndSubs(s) && Enabled(s, e) ensures InvAndSubs(Apply(s, e)) {
      StepKeepsSubs(s, e);
    }
    InvariantReached(Bus(), s => InvAndSubs(s), Init(), s);
  }

  // ----- each event is dispatched once -----

  /** published[k] is the event of the k-th Publish call. */
  ghost predicate Numbered(s: State) { forall k :: 0 <= k < |s.published| ==> s.published[k].n == k }

  lemma StaysNumbered(s: State, e: Event)
    requires Numbered(s) && Enabled(s, e)
    ensures Numbered(Apply(s, e))
  {
    hide AfterSubscribe, AfterUnsubscribe;
  }

  lemma ReachableNumbered(s: State)
    requires Reachable(s)
    ensures Numbered(s)
  {
    assert Numbered(Init());
    hide Numbered, Enabled, Apply, Init;
    forall s, e | Numbered(s) && Enabled(s, e) ensures Numbered(Apply(s, e)) {
      StaysNumbered(s, e);
    }
    InvariantReached(Bus(), s => Numbered(s), Init(), s);
  }

  lemma DispatchPlace(ts: seq<Task>, p: nat)
    requires p < |ts| && ts[p].DispatchTask?
    ensures |Dispatches(ts[..p])| < |Dispatches(ts)| && Dispatches(ts)[|Dispatches(ts[..p])|] == ts[p].event
  {
    assert ts == ts[..p] + ([ts[p]] + ts[p + 1..]);
    FilterConcat(ts[..p], [ts[p]] + ts[p + 1..]);
    FilterConcat([ts[p]], ts[p + 1..]);
    OneDispatch(ts[p]);
  }

  lemma LaterPlace(ts: seq<Task>, p: nat, q: nat)
    requires p < q <= |ts| && ts[p].DispatchTask?
    ensures |Dispatches(ts[..p])| < |Dispatches(ts[..q])|
  {
    assert ts[..q][..p] == ts[..p];
    DispatchPlace(ts[..q], p);
  }

  lemma {:induction false} EventAt(ds: seq<(Published, seq<SubID>)>, k: nat)
    requires k < |ds|
    ensures |EventsOf(ds)| == |ds| && EventsOf(ds)[k] == ds[k].0
    decreases |ds|
  {
    ExpectedPrefix(ds, |ds|);
    if k < |ds| - 1 {
      ExpectedPrefix(ds[..|ds| - 1], |ds| - 1);
      EventAt(ds[..|ds| - 1], k);
    } else {
      ExpectedPrefix(ds[..k], k);
    }
  }

  /** A dispatch task of the log that has begun stands in it once, and is the one that
      made the entry of its Publish call. */
  lemma DispatchEntry(s: State, p: nat)
    requires Inv(s) && Numbered(s) && p < |Begun(s.runner)| && Begun(s.runner)[p].DispatchTask?
    ensures var e := Begun(s.runner)[p].event;
            && e.n == |Dispatches(Begun(s.runner)[..p])| < |s.dispatched| && s.dispatched[e.n].0 == e
  {
    var log := Begun(s.runner);
    DispatchPlace(log, p);
    var k := |Dispatches(log[..p])|;
    assert s.runner.Log() == log + s.runner.waiting;
    FilterConcat(log, s.runner.waiting);
    assert s.published[k] == Dispatches(log)[k] == log[p].event;
    ExpectedPrefix(s.dispatched, |s.dispatched|);
    EventAt(s.dispatched, k);
  }

  /** While nothing has panicked: the dispatch task of an event, at position p of the
      log, found the ID of each subscriber as of that position, once, and no other. */
  lemma DispatchFindsSubscribers(s: State, p: nat, id: SubID)
    requires Reachable(s) && !s.panicked && p < |Begun(s.runner)| && Begun(s.runner)[p].DispatchTask?
    ensures var e := Begun(s.runner)[p].event;
            && e.n < |s.dispatched| && s.dispatched[e.n].0 == e
            && multiset(s.dispatched[e.n].1)[id] == if Subscribed(Begun(s.runner), p, e.typ, id) then 1 else 0
  {
    ReachableSubs(s);
    ReachableNumbered(s);
    hide Reachable, Inv, Numbered, Begun, Dispatches, IsList, Follows;
    var log := Begun(s.runner);
    DispatchEntry(s, p);
    var e := log[p].event;
    var d := s.dispatched[e.n];
    assert Found(log, d);
    var q: nat :| q < |log| && log[q] == DispatchTask(d.0) && IsList(log, q, d.0.typ, d.1);
    DispatchEntry(s, q);
    if p < q { LaterPlace(log, p, q); }
    if q < p { LaterPlace(log, q, p); }
    ListCounts(log, p, e.typ, d.1, id);
  }

  lemma ListCounts(log: seq<Task>, p: nat, typ: EventType, list: seq<SubID>, id: SubID)
    requires p <= |log| && IsList(log, p, typ, list)
    ensures multiset(list)[id] == if Subscribed(log, p, typ, id) then 1 else 0
  {
    CountOnce(list, id);
  }

  // ----- and each subscriber's handler runs once -----

  lemma CountConcat<T>(a: seq<T>, b: seq<T>, x: T)
    ensures multiset(a + b)[x] == multiset(a)[x] + multiset(b)[x]
  {
  }

  lemma CountLast<T>(a: seq<T>, x: T)
    requires a != []
    ensures multiset(a)[x] == multiset(a[..|a| - 1])[x] + if a[|a| - 1] == x then 1 else 0
  {
    assert a == a[..|a| - 1] + [a[|a| - 1]];
  }

  lemma {:induction false} HandlerCount(ts: seq<Task>, e: Published, id: SubID)
    ensures multiset(ts)[HandlerTask(e, id)] == multiset(Handlers(ts))[(e, id)]
  {
    if ts != [] {
      var n := |ts| - 1;
      var last := if ts[n].HandlerTask? then [(ts[n].event, ts[n].sub)] else [];
      assert Handlers(ts) == Handlers(ts[..n]) + last;
      hide Handlers;
      HandlerCount(ts[..n], e, id);
      CountLast(ts, HandlerTask(e, id));
      CountConcat(Handlers(ts[..n]), last, (e, id));
    }
  }

  lemma {:induction false} PairCount(e: Published, subs: seq<SubID>, f: Published, id: SubID)
    ensures multiset(Pairs(e, subs))[(f, id)] == if e == f then multiset(subs)[id] else 0
  {
    if subs != [] {
      PairCount(e, subs[1..], f, id);
      assert subs == [subs[0]] + subs[1..];
    }
  }

  lemma {:induction false} HeardByNone(ds: seq<(Published, seq<SubID>)>, f: Published, id: SubID)
    requires forall i :: 0 <= i < |ds| ==> ds[i].0 != f
    ensures multiset(Expected(ds))[(f, id)] == 0
  {
    if ds != [] {
      var n := |ds| - 1;
      assert Expected(ds) == Expected(ds[..n]) + Pairs(ds[n].0, ds[n].1);
      hide Expected, Pairs;
      HeardByNone(ds[..n], f, id);
      PairCount(ds[n].0, ds[n].1, f, id);
      CountConcat(Expected(ds[..n]), Pairs(ds[n].0, ds[n].1), (f, id));
    }
  }

  /** An event dispatched once is heard by its own list alone. */
  lemma {:induction false} ExpectedCount(ds: seq<(Published, seq<SubID>)>, k: nat, id: SubID)
    requires forall i :: 0 <= i < |ds| ==> ds[i].0.n == i
    requires k < |ds|
    ensures multiset(Expected(ds))[(ds[k].0, id)] == multiset(ds[k].1)[id]
  {
    var n := |ds| - 1;
    assert Expected(ds) == Expected(ds[..n]) + Pairs(ds[n].0, ds[n].1);
    hide Expected, Pairs;
    PairCount(ds[n].0, ds[n].1, ds[k].0, id);
    CountConcat(Expected(ds[..n]), Pairs(ds[n].0, ds[n].1), (ds[k].0, id));
    if k < n {
      ExpectedCount(ds[..n], k, id);
    } else {
      HeardByNone(ds[..n], ds[k].0, id);
    }
  }

  lemma EntriesAreNumbered(s: State)
    requires Inv(s) && Numbered(s) && EventsOf(s.dispatched) <= s.published
    ensures forall i :: 0 <= i < |s.dispatched| ==> s.dispatched[i].0.n == i
  {
    forall i: nat | i < |s.dispatched| ensures s.dispatched[i].0.n == i {
      EventAt(s.dispatched, i);
      assert s.published[i] == EventsOf(s.dispatched)[i];
    }
  }

  /** Once the runner is idle, nothing having panicked: for each event published, the
      handler of a subscriber has run exactly once if the dispatch task stands in the
      log after its Subscribe with no Unsubscribe of it in between, and never otherwise. */
  lemma EachSubscriberHearsItOnce(s: State, p: nat, id: SubID)
    requires Reachable(s) && !s.panicked && s.runner.Idle()
    requires p < |s.runner.finished| && s.runner.finished[p].DispatchTask?
    ensures var e := s.runner.finished[p].event;
            multiset(s.runner.finished)[HandlerTask(e, id)]
            == if Subscribed(s.runner.finished, p, e.typ, id) then 1 else 0
  {
    assert Begun(s.runner) == s.runner.finished;
    DispatchFindsSubscribers(s, p, id);
    HandlersFollowDispatches(s);
    ReachableInv(s);
    ReachableNumbered(s);
    hide Reachable, Inv, Numbered, Begun, Subscribed, Expected, Handlers;
    EntriesAreNumbered(s);
    var e := s.runner.finished[p].event;
    HandlerCount(s.runner.finished, e, id);
    ExpectedCount(s.dispatched, e.n, id);
  }

  /** Publish order survives the extra hop: events are dispatched in publish order, the
      handlers that have begun are a prefix of the events' subscriber lists one after
      the other, and once the runner is idle they are all of it, for every published
      event. The lists are the right ones: as long as nothing has panicked the handler
      of an ID runs for an event exactly once if the ID's Subscribe task stands before
      the event's dispatch task with no Unsubscribe task of the ID in between, and
      never otherwise. */
  lemma HandlersRunInPublishOrder(s: State)
    requires Reachable(s)
    ensures EventsOf(s.dispatched) <= s.published
    ensures Handlers(Begun(s.runner)) <= Expected(s.dispatched)
    ensures s.runner.Idle() ==>
              EventsOf(s.dispatched) == s.published && Handlers(s.runner.finished) == Expected(s.dispatched)
    ensures s.runner.Idle() && !s.panicked ==>
              forall p, id :: 0 <= p < |s.runner.finished| && s.runner.finished[p].DispatchTask? ==>
                multiset(s.runner.finished)[HandlerTask(s.runner.finished[p].event, id)]
                == if Subscribed(s.runner.finished, p, s.runner.finished[p].event.typ, id) then 1 else 0
  {
    HandlersFollowDispatches(s);
    hide Reachable, Subscribed, Expected, Handlers, EventsOf;
    if s.runner.Idle() && !s.panicked {
      forall p: nat, id | p < |s.runner.finished| && s.runner.finished[p].DispatchTask?
        ensures multiset(s.runner.finished)[HandlerTask(s.runner.finished[p].event, id)]
                == if Subscribed(s.runner.finished, p, s.runner.finished[p].event.typ, id) then 1 else 0
      {
        EachSubscriberHearsItOnce(s, p, id);
      }
    }
  }

  // ----- from the callers' side -----

  /** t is the state after event e at s. */
  ghost predicate Took(s: State, e: Event, t: State) { Enabled(s, e) && t == Apply(s, e) }

  /** Nothing posted is taken back. */
  ghost predicate Grown(s: State, t: State) { s.runner.Log() <= t.runner.Log() }

  lemma StaysGrown(s: State, t: State, e: Event)
    requires Grown(s, t) && Enabled(t, e)
    ensures Grown(s, Apply(t, e))
  {
    hide Enabled, Apply;
    StepIsLater(t, e);
  }

  lemma ReachedGrown(s: State, t: State)
    requires Bus().Reaches(s, t)
    ensures Grown(s, t)
  {
    assert Grown(s, s);
    hide Grown, Enabled, Apply;
    forall u, e | Grown(s, u) && Enabled(u, e) ensures Grown(s, Apply(u, e)) {
      StaysGrown(s, u, e);
    }
    InvariantReached(Bus(), u => Grown(s, u), s, t);
  }

  lemma ReachableLater(s: State, t: State)
    requires Reachable(s) && Bus().Reaches(s, t)
    ensures Reachable(t) && s.runner.Log() <= t.runner.Log()
  {
    ReachesFurther(Bus(), Init(), s, t);
    ReachedGrown(s, t);
  }

  /** A client posts a task at a: it stands in the log of every later state. */
  lemma PostStands(a: State, e: Event, b: State, s: State, task: Task)
    requires Reachable(a) && Took(a, e, b) && Bus().Reaches(b, s)
    requires b.runner == Post(a.runner, task)
    ensures Reachable(b) && Reachable(s) && b.runner.Log() <= s.runner.Log()
    ensures |a.runner.Log()| < |s.runner.Log()| && s.runner.Log()[|a.runner.Log()|] == task
  {
    LogOnlyGrows(a.runner);
    assert b.runner.Log() == a.runner.Log() + [task];
    Next(a, e);
    hide Apply, Enabled, Reachable, Fifo.Log;
    ReachableLater(b, s);
  }

  lemma PublishStands(c: State, typ: EventType, d: State, s: State)
    requires Reachable(c) && Took(c, Event.Publish(typ), d) && Bus().Reaches(d, s) && s.runner.Idle()
    ensures Reachable(s) && c.runner.Log() <= s.runner.finished && |c.runner.Log()| < |s.runner.finished|
    ensures s.runner.finished[|c.runner.Log()|] == DispatchTask(Published(typ, |c.published|))
  {
    LogOnlyGrows(c.runner);
    PostStands(c, Event.Publish(typ), d, s, DispatchTask(Published(typ, |c.published|)));
    hide Apply, Enabled, Reachable;
    assert s.runner.Log() == s.runner.finished;
    assert c.runner.Log() <= d.runner.Log();
  }

  /** WaitIdle's barrier is posted and has run by the time the bus is idle, after all
      that was posted before the call. */
  lemma WaitIdleGetsThrough(a: State, b: State, s: State)
    requires Reachable(a) && Took(a, Event.WaitIdle, b) && Bus().Reaches(b, s) && s.runner.Idle()
    ensures a.runner.Log() <= s.runner.finished && |a.runner.Log()| < |s.runner.finished|
    ensures s.runner.finished[|a.runner.Log()|] == WaitTask
  {
    LogOnlyGrows(a.runner);
    PostStands(a, Event.WaitIdle, b, s, WaitTask);
    hide Apply, Enabled, Reachable;
    assert s.runner.Log() == s.runner.finished;
    assert a.runner.Log() <= b.runner.Log();
  }

  /** Subscribe, then Publish, then rest: the handler has run for the event, once, if
      nobody has unsubscribed it in between and nothing has panicked. */
  lemma SubscriberHearsLaterEvent(a: State, typ: EventType, b: State, c: State, d: State, s: State)
    requires Reachable(a) && Took(a, Event.Subscribe(typ), b) && Bus().Reaches(b, c)
    requires Took(c, Event.Publish(typ), d) && Bus().Reaches(d, s) && s.runner.Idle() && !s.panicked
    requires UnsubscribeTask(a.nextID) !in s.runner.finished
    ensures multiset(s.runner.finished)[HandlerTask(Published(typ, |c.published|), a.nextID)] == 1
  {
    var id, i, p := a.nextID, |a.runner.Log()|, |c.runner.Log()|;
    PostStands(a, Event.Subscribe(typ), b, c, SubscribeTask(typ, id));
    PublishStands(c, typ, d, s);
    hide Reachable, Took, Fifo.Log, Fifo.Idle;
    assert s.runner.finished[i] == SubscribeTask(typ, id);
    assert Undisturbed(s.runner.finished, i, p, id);
    assert Subscribed(s.runner.finished, p, typ, id);
    EachSubscriberHearsItOnce(s, p, id);
  }

  /** No ID is handed out twice: what is subscribed from position n of the log on has
      an ID of at least from. */
  ghost predicate FreshFrom(s: State, n: nat, from: SubID)
  {
    && n <= |s.runner.Log()| && from <= s.nextID
    && forall k :: n <= k < |s.runner.Log()| && s.runner.Log()[k].SubscribeTask? ==> s.runner.Log()[k].id >= from
  }

  lemma StaysFresh(s: State, e: Event, n: nat, from: SubID)
    requires FreshFrom(s, n, from) && Enabled(s, e)
    ensures FreshFrom(Apply(s, e), n, from)
  {
    LogOnlyGrows(s.runner);
    hide AfterSubscribe, AfterUnsubscribe;
    var t := Apply(s, e);
    if e.BeginTask? {
      assert t.runner.Log() == s.runner.Log();
    } else if e.EndTask? {
      assert t.runner.Log() == s.runner.Log();
    }
  }

  /** Unsubscribe, then Publish: the handler does not run for the event, while nothing
      has panicked. */
  lemma UnsubscribedHandlerStaysSilent(a: State, id: SubID, b: State, c: State, typ: EventType, d: State, s: State)
    requires Reachable(a) && id < a.nextID && Took(a, Event.Unsubscribe(id), b) && Bus().Reaches(b, c)
    requires Took(c, Event.Publish(typ), d) && Bus().Reaches(d, s) && s.runner.Idle() && !s.panicked
    ensures HandlerTask(Published(typ, |c.published|), id) !in s.runner.finished
  {
    var e, i, p := Published(typ, |c.published|), |a.runner.Log()|, |c.runner.Log()|;
    PostStands(a, Event.Unsubscribe(id), b, c, UnsubscribeTask(id));
    PublishStands(c, typ, d, s);
    FreshAfter(a, id, b, c);
    hide Reachable, Took, Fifo.Log, Fifo.Idle, FreshFrom;
    assert s.runner.finished[i] == UnsubscribeTask(id);
    SilentAt(c, s.runner.finished, i, p, typ, id, a.nextID);
    EachSubscriberHearsItOnce(s, p, id);
    assert multiset(s.runner.finished)[HandlerTask(e, id)] == 0;
  }

  lemma FreshAfter(a: State, id: SubID, b: State, c: State)
    requires Took(a, Event.Unsubscribe(id), b) && Bus().Reaches(b, c)
    ensures FreshFrom(c, |a.runner.Log()| + 1, a.nextID)
  {
    LogOnlyGrows(a.runner);
    assert b.runner.Log() == a.runner.Log() + [UnsubscribeTask(id)];
    FreshReached(b, c, |a.runner.Log()| + 1, a.nextID);
  }

  lemma SilentAt(c: State, log: seq<Task>, i: nat, p: nat, typ: EventType, id: SubID, from: SubID)
    requires c.runner.Log() <= log && |c.runner.Log()| == p && FreshFrom(c, i + 1, from) && id < from
    requires log[i] == UnsubscribeTask(id)
    ensures !Subscribed(log, p, typ, id)
  {
    forall j: nat | j < p && log[j] == SubscribeTask(typ, id) ensures !Undisturbed(log, j, p, id) {
      assert c.runner.Log()[j] == log[j];
      assert j <= i;
    }
  }

  lemma FreshReached(s: State, t: State, n: nat, from: SubID)
    requires FreshFrom(s, n, from) && Bus().Reaches(s, t)
    ensures FreshFrom(t, n, from)
  {
    hide FreshFrom, Enabled, Apply;
    forall u, e | FreshFrom(u, n, from) && Enabled(u, e) ensures FreshFrom(Apply(u, e), n, from) {
      StaysFresh(u, e, n, from);
    }
    InvariantReached(Bus(), u => FreshFrom(u, n, from), s, t);
  }
}
