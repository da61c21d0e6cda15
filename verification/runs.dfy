/** Runs of a protocol: a machine says which atomic steps are enabled and what each does. */
module Runs {

  datatype Machine<!S(!new), !E(!new)> = Machine(enabled: (S, E) -> bool, next: (S, E) --> S)
  {
    ghost predicate Can(s: S, e: E)
    {
      enabled(s, e) && next.requires(s, e)
    }

    /** es is a schedule the machine can follow from s. */
    ghost predicate Legal(s: S, es: seq<E>)
      decreases |es|
    {
      es == [] || (Can(s, es[0]) && Legal(next(s, es[0]), es[1..]))
    }

    ghost function After(s: S, es: seq<E>): S
      requires Legal(s, es)
      decreases |es|
    {
      if es == [] then s else After(next(s, es[0]), es[1..])
    }

    /** t can be reached from s by some schedule. */
    ghost predicate Reaches(s: S, t: S)
    {
      exists es :: Legal(s, es) && After(s, es) == t
    }

    lemma {:induction false} Append(s: S, es: seq<E>, more: seq<E>)
      requires Legal(s, es) && Legal(After(s, es), more)
      ensures Legal(s, es + more) && After(s, es + more) == After(After(s, es), more)
      decreases |es|
    {
      if es == [] {
        assert es + more == more;
      } else {
        assert (es + more)[1..] == es[1..] + more;
        Append(next(s, es[0]), es[1..], more);
      }
    }

    lemma Snoc(s: S, es: seq<E>, e: E)
      requires Legal(s, es) && Can(After(s, es), e)
      ensures Legal(s, es + [e]) && After(s, es + [e]) == next(After(s, es), e)
    {
      var t := After(s, es);
      assert [e][1..] == [];
      assert Legal(next(t, e), []);
      assert Legal(t, [e]);
      assert After(t, [e]) == After(next(t, e), []);
      Append(s, es, [e]);
    }
  }

  /** One more step. */
  lemma ReachesNext<S(!new), E(!new)>(m: Machine<S, E>, s: S, t: S, e: E)
    requires m.Reaches(s, t) && m.Can(t, e)
    ensures m.Reaches(s, m.next(t, e))
  {
    var es :| m.Legal(s, es) && m.After(s, es) == t;
    m.Snoc(s, es, e);
  }

  lemma ReachesOn<S(!new), E(!new)>(m: Machine<S, E>, s: S, t: S, more: seq<E>)
    requires m.Reaches(s, t) && m.Legal(t, more)
    ensures m.Reaches(s, m.After(t, more))
  {
    var es :| m.Legal(s, es) && m.After(s, es) == t;
    m.Append(s, es, more);
  }

  lemma ReachesFurther<S(!new), E(!new)>(m: Machine<S, E>, s: S, t: S, u: S)
    requires m.Reaches(s, t) && m.Reaches(t, u)
    ensures m.Reaches(s, u)
  {
    var more :| m.Legal(t, more) && m.After(t, more) == u;
    ReachesOn(m, s, t, more);
  }

  lemma ReachesItself<S(!new), E(!new)>(m: Machine<S, E>, s: S)
    ensures m.Reaches(s, s)
  {
    assert m.Legal(s, []) && m.After(s, []) == s;
  }

  /** An inductive invariant holds all along every run. */
  lemma {:induction false} Keeps<S(!new), E(!new)>(m: Machine<S, E>, inv: S -> bool, s: S, es: seq<E>)
    requires inv(s) && m.Legal(s, es)
    requires forall s, e :: inv(s) && m.Can(s, e) ==> inv(m.next(s, e))
    ensures inv(m.After(s, es))
    decreases |es|
  {
    if es != [] {
      assert m.Can(s, es[0]);
      Keeps(m, inv, m.next(s, es[0]), es[1..]);
    }
  }

  lemma InvariantReached<S(!new), E(!new)>(m: Machine<S, E>, inv: S -> bool, s: S, t: S)
    requires inv(s) && m.Reaches(s, t)
    requires forall s, e :: inv(s) && m.Can(s, e) ==> inv(m.next(s, e))
    ensures inv(t)
  {
    var es :| m.Legal(s, es) && m.After(s, es) == t;
    Keeps(m, inv, s, es);
  }
}
