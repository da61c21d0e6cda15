/** What a sequenced runner offers its clients: tasks wait in post order, one at
    a time is current, finished ones are remembered. SequencedRunner.Refines
    shows that the real runner behaves like this; the job manager, the event bus
    and the WaitIdle argument are built on it. */
module FifoRunner {

  datatype Option<+T> = None | Some(value: T)

  function AsSeq<T>(o: Option<T>): seq<T> { if o.Some? then [o.value] else [] }

  datatype Fifo<+T> = Fifo(finished: seq<T>, current: Option<T>, waiting: seq<T>)
  {
    /** Everything posted and not dropped, in post order. */
    function Log(): seq<T> { finished + AsSeq(current) + waiting }

    predicate Idle() { current.None? && waiting == [] }
  }

  function Empty<T>(): Fifo<T> { Fifo([], None, []) }

  function Post<T>(s: Fifo<T>, t: T): Fifo<T> { s.(waiting := s.waiting + [t]) }

  predicate CanBegin<T>(s: Fifo<T>) { s.current.None? && s.waiting != [] }

  function Begin<T>(s: Fifo<T>): Fifo<T>
    requires CanBegin(s)
  {
    Fifo(s.finished, Some(s.waiting[0]), s.waiting[1..])
  }

  function End<T>(s: Fifo<T>): Fifo<T>
    requires s.current.Some?
  {
    Fifo(s.finished + [s.current.value], None, s.waiting)
  }

  function Clear<T>(s: Fifo<T>): Fifo<T> { s.(waiting := []) }

  /** One step of the abstract runner, or none. */
  ghost predicate Steps<T(!new)>(s: Fifo<T>, r: Fifo<T>)
  {
    || r == s
    || (exists t :: r == Post(s, t))
    || (CanBegin(s) && r == Begin(s))
    || (s.current.Some? && r == End(s))
    || r == Clear(s)
  }

  /** Beginning and ending a task leave the log alone; posting appends to it. */
  lemma LogOnlyGrows<T>(s: Fifo<T>)
    ensures forall t :: Post(s, t).Log() == s.Log() + [t]
    ensures CanBegin(s) ==> Begin(s).Log() == s.Log()
    ensures s.current.Some? ==> End(s).Log() == s.Log()
  {
    forall t ensures Post(s, t).Log() == s.Log() + [t] {
      assert s.waiting + [t] == Post(s, t).waiting;
    }
  }
}
