/** Sums over the program counters of a group of threads: every protocol below
    counts its threads with them. */
module Counting {

  function Sum<T>(s: seq<T>, weight: T -> nat): nat
  {
    if s == [] then 0 else weight(s[0]) + Sum(s[1..], weight)
  }

  lemma {:induction false} SumConcat<T>(s: seq<T>, t: seq<T>, weight: T -> nat)
    ensures Sum(s + t, weight) == Sum(s, weight) + Sum(t, weight)
  {
    if s == [] {
      assert s + t == t;
    } else {
      assert (s + t)[1..] == s[1..] + t;
      SumConcat(s[1..], t, weight);
    }
  }

  /** A new thread enters. */
  lemma SumAppend<T>(s: seq<T>, x: T, weight: T -> nat)
    ensures Sum(s + [x], weight) == Sum(s, weight) + weight(x)
  {
    SumConcat(s, [x], weight);
  }

  /** One thread takes a step. */
  lemma SumUpdate<T>(s: seq<T>, i: nat, x: T, weight: T -> nat)
    requires i < |s|
    ensures Sum(s[i := x], weight) + weight(s[i]) == Sum(s, weight) + weight(x)
  {
    var t := s[i := x];
    assert s == s[..i] + ([s[i]] + s[i + 1..]);
    assert t == s[..i] + ([x] + s[i + 1..]);
    SumConcat(s[..i], [s[i]] + s[i + 1..], weight);
    SumConcat(s[..i], [x] + s[i + 1..], weight);
  }

  /** One thread is somewhere only if the sum says so. */
  lemma SumAt<T>(s: seq<T>, i: nat, weight: T -> nat)
    requires i < |s|
    ensures weight(s[i]) <= Sum(s, weight)
  {
    assert s == s[..i] + ([s[i]] + s[i + 1..]);
    SumConcat(s[..i], [s[i]] + s[i + 1..], weight);
  }

  /** Two different threads both count. */
  lemma SumAtTwo<T>(s: seq<T>, i: nat, j: nat, weight: T -> nat)
    requires i < j < |s|
    ensures weight(s[i]) + weight(s[j]) <= Sum(s, weight)
  {
    assert s == s[..j] + s[j..];
    SumConcat(s[..j], s[j..], weight);
    SumAt(s[..j], i, weight);
    SumAt(s[j..], 0, weight);
  }

  lemma {:induction false} SumWitness<T>(s: seq<T>, weight: T -> nat) returns (i: nat)
    requires Sum(s, weight) > 0
    ensures i < |s| && weight(s[i]) > 0
  {
    if weight(s[0]) > 0 {
      i := 0;
    } else {
      var j := SumWitness(s[1..], weight);
      i := j + 1;
    }
  }

  lemma {:induction false} SumZero<T>(s: seq<T>, weight: T -> nat)
    requires forall i :: 0 <= i < |s| ==> weight(s[i]) == 0
    ensures Sum(s, weight) == 0
  {
    if s != [] {
      SumZero(s[1..], weight);
    }
  }

  /** When no thread weighs more than one, the sum is at most the number of threads. */
  lemma {:induction false} SumBound<T>(s: seq<T>, weight: T -> nat)
    requires forall i :: 0 <= i < |s| ==> weight(s[i]) <= 1
    ensures Sum(s, weight) <= |s|
  {
    if s != [] {
      SumBound(s[1..], weight);
    }
  }

  /** s without the element at k. */
  function Without<T>(s: seq<T>, k: nat): (r: seq<T>)
    requires k < |s|
    ensures |r| == |s| - 1
    ensures forall i :: 0 <= i < |r| ==> r[i] == s[if i < k then i else i + 1]
  {
    s[..k] + s[k + 1..]
  }

  lemma WithoutOne<T>(s: seq<T>, k: nat)
    requires k < |s|
    ensures multiset(s) == multiset(Without(s, k)) + multiset{s[k]}
  {
    assert s == s[..k] + ([s[k]] + s[k + 1..]);
  }

  lemma Covers(n: nat, order: seq<nat>, k: nat)
    requires k < |order| && order[k] == n
    requires forall i, j :: 0 <= i < j < |order| ==> order[i] != order[j]
    requires forall p :: 0 <= p <= n ==> p in order
    requires forall i :: 0 <= i < |order| ==> order[i] <= n
    ensures forall p :: 0 <= p < n ==> p in Without(order, k)
    ensures forall i :: 0 <= i < |order| - 1 ==> Without(order, k)[i] < n
  {
    forall p | 0 <= p < n ensures p in Without(order, k) {
      assert p in order;
      var j :| 0 <= j < |order| && order[j] == p;
      assert Without(order, k)[if j < k then j else j - 1] == p;
    }
  }

  /** order runs through all places of xs, each once: ys holds the same elements. */
  lemma {:induction false} Rearranged<T>(xs: seq<T>, ys: seq<T>, order: seq<nat>)
    requires |ys| == |order| && forall k :: 0 <= k < |order| ==> order[k] < |xs| && ys[k] == xs[order[k]]
    requires forall j, k :: 0 <= j < k < |order| ==> order[j] != order[k]
    requires forall p :: 0 <= p < |xs| ==> p in order
    ensures |order| == |xs| && multiset(ys) == multiset(xs)
    decreases |xs|
  {
    hide Without;
    if xs == [] {
      assert order == [];
    } else {
      var n: nat := |xs| - 1;
      assert n in order;
      var k :| 0 <= k < |order| && order[k] == n;
      Covers(n, order, k);
      Rearranged(xs[..n], Without(ys, k), Without(order, k));
      WithoutOne(ys, k);
      assert xs == xs[..n] + [xs[n]];
    }
  }
}
