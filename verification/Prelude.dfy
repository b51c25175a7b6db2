/** Sequence vocabulary shared by every model: optional values, error results,
    ordered filtering, first-occurrence order and sums. Sequences are consumed
    from the right, in the order in which the modelled loops append. */
module Prelude {
  datatype Option<+T> = None | Some(value: T)

  datatype Result<+T, +E> = Ok(value: T) | Err(error: E) {
    predicate IsFailure() { Err? }
    function PropagateFailure<U>(): Result<U, E>
      requires Err?
    {
      Err(error)
    }
    function Extract(): T
      requires Ok?
    {
      value
    }
  }

  ghost predicate Distinct<T>(xs: seq<T>) {
    forall i, j | 0 <= i < j < |xs| :: xs[i] != xs[j]
  }

  function Front<T>(xs: seq<T>): (r: seq<T>)
    requires xs != []
    ensures |r| == |xs| - 1
  {
    xs[..|xs| - 1]
  }

  function Last<T>(xs: seq<T>): T
    requires xs != []
  {
    xs[|xs| - 1]
  }

  lemma Split<T>(xs: seq<T>)
    requires xs != []
    ensures xs == Front(xs) + [Last(xs)]
  {
  }

  /** The prefix one longer than xs[..i]. */
  lemma Prefix<T>(xs: seq<T>, i: nat)
    requires i < |xs|
    ensures xs[..i + 1] != [] && Front(xs[..i + 1]) == xs[..i] && Last(xs[..i + 1]) == xs[i]
    ensures xs[..i + 1] == xs[..i] + [xs[i]]
  {
  }

  function Filter<T>(keep: T -> bool, xs: seq<T>): seq<T> {
    if xs == [] then [] else
      var rest := Filter(keep, Front(xs));
      if keep(Last(xs)) then rest + [Last(xs)] else rest
  }

  function Map<T, U>(f: T -> U, xs: seq<T>): (r: seq<U>)
    ensures |r| == |xs|
    ensures forall i | 0 <= i < |xs| :: r[i] == f(xs[i])
  {
    seq(|xs|, i requires 0 <= i < |xs| => f(xs[i]))
  }

  function FlatMap<T, U>(f: T -> seq<U>, xs: seq<T>): seq<U> {
    if xs == [] then [] else FlatMap(f, Front(xs)) + f(Last(xs))
  }

  lemma {:induction false} FlatMapMembers<T, U>(f: T -> seq<U>, xs: seq<T>)
    ensures forall u | u in FlatMap(f, xs) :: exists x :: x in xs && u in f(x)
    ensures forall x, u | x in xs && u in f(x) :: u in FlatMap(f, xs)
  {
    if xs != [] {
      Split(xs);
      FlatMapMembers(f, Front(xs));
      forall u | u in FlatMap(f, xs)
        ensures exists x :: x in xs && u in f(x)
      {
        if u in f(Last(xs)) {
          assert Last(xs) in xs;
        } else {
          assert u in FlatMap(f, Front(xs));
          var x :| x in Front(xs) && u in f(x);
          assert x in xs;
        }
      }
    }
  }

  lemma {:induction false} FilterAppend<T>(keep: T -> bool, xs: seq<T>, ys: seq<T>)
    ensures Filter(keep, xs + ys) == Filter(keep, xs) + Filter(keep, ys)
  {
    if ys == [] {
      assert xs + ys == xs;
    } else {
      FilterAppend(keep, xs, Front(ys));
      assert Front(xs + ys) == xs + Front(ys);
    }
  }

  lemma {:induction false} FilterMembers<T>(keep: T -> bool, xs: seq<T>)
    ensures forall x :: x in Filter(keep, xs) <==> x in xs && keep(x)
    ensures |Filter(keep, xs)| <= |xs|
  {
    if xs != [] {
      FilterMembers(keep, Front(xs));
      Split(xs);
    }
  }

  lemma {:induction false} FilterAll<T>(keep: T -> bool, xs: seq<T>)
    requires forall x | x in xs :: keep(x)
    ensures Filter(keep, xs) == xs
  {
    if xs != [] {
      FilterAll(keep, Front(xs));
    }
  }

  lemma {:induction false} FilterNone<T>(keep: T -> bool, xs: seq<T>)
    requires forall x | x in xs :: !keep(x)
    ensures Filter(keep, xs) == []
  {
    if xs != [] {
      FilterNone(keep, Front(xs));
    }
  }

  /** Two predicates that agree on the members select the same subsequence. */
  lemma {:induction false} FilterAgree<T>(p: T -> bool, q: T -> bool, xs: seq<T>)
    requires forall x | x in xs :: p(x) == q(x)
    ensures Filter(p, xs) == Filter(q, xs)
  {
    if xs != [] {
      FilterAgree(p, q, Front(xs));
    }
  }

  function Both<T>(p: T -> bool, q: T -> bool): T -> bool { (x: T) => p(x) && q(x) }

  lemma {:induction false} FilterTwice<T>(p: T -> bool, q: T -> bool, xs: seq<T>)
    ensures Filter(p, Filter(q, xs)) == Filter(Both(p, q), xs)
  {
    if xs != [] {
      FilterTwice(p, q, Front(xs));
      var rest := Filter(q, Front(xs));
      assert Front(rest + [Last(xs)]) == rest;
    }
  }

  lemma {:induction false} FilterMultiset<T>(keep: T -> bool, xs: seq<T>, x: T)
    ensures multiset(Filter(keep, xs))[x] == if keep(x) then multiset(xs)[x] else 0
  {
    if xs != [] {
      FilterMultiset(keep, Front(xs), x);
      Split(xs);
    }
  }

  /** The distinct members of xs in the order in which they first appear: the
      iteration order of a dict filled by xs. */
  function FirstOccurrences<K(==)>(xs: seq<K>): seq<K> {
    if xs == [] then [] else
      var rest := FirstOccurrences(Front(xs));
      if Last(xs) in rest then rest else rest + [Last(xs)]
  }

  lemma {:induction false} FirstOccurrencesDistinct<K>(xs: seq<K>)
    ensures Distinct(FirstOccurrences(xs))
    ensures forall k :: k in FirstOccurrences(xs) <==> k in xs
  {
    if xs != [] {
      FirstOccurrencesDistinct(Front(xs));
      Split(xs);
    }
  }

  lemma FrontDistinct<K>(xs: seq<K>)
    requires xs != [] && Distinct(xs)
    ensures Distinct(Front(xs)) && Last(xs) !in Front(xs)
  {
    forall i | 0 <= i < |xs| - 1
      ensures Front(xs)[i] != Last(xs)
    {
    }
  }

  function Sum(xs: seq<real>): real {
    if xs == [] then 0.0 else Sum(Front(xs)) + Last(xs)
  }

  lemma {:induction false} SumAppend(xs: seq<real>, ys: seq<real>)
    ensures Sum(xs + ys) == Sum(xs) + Sum(ys)
  {
    if ys == [] {
      assert xs + ys == xs;
    } else {
      SumAppend(xs, Front(ys));
      assert Front(xs + ys) == xs + Front(ys);
    }
  }

  function Count<T>(keep: T -> bool, xs: seq<T>): nat {
    |Filter(keep, xs)|
  }

  /** Where the members of a kind stand. */
  ghost function Positions<T>(keep: T -> bool, xs: seq<T>): set<int> { set i | 0 <= i < |xs| && keep(xs[i]) }

  lemma {:induction false} CountIsPositions<T>(keep: T -> bool, xs: seq<T>)
    ensures Count(keep, xs) == |Positions(keep, xs)|
  {
    if xs == [] {
      assert Positions(keep, xs) == {};
    } else {
      CountIsPositions(keep, Front(xs));
      var before, last := Positions(keep, Front(xs)), |xs| - 1;
      assert Positions(keep, xs) == if keep(xs[last]) then before + {last} else before;
      assert last !in before;
    }
  }

  /** Filtering keeps the order. */
  lemma {:induction false} FilterInOrder<T(!new)>(keep: T -> bool, xs: seq<T>, i: int, j: int) returns (k: int, l: int)
    requires 0 <= i < j < |Filter(keep, xs)|
    ensures 0 <= k < l < |xs| && xs[k] == Filter(keep, xs)[i] && xs[l] == Filter(keep, xs)[j]
  {
    var rest := Filter(keep, Front(xs));
    if j < |rest| {
      k, l := FilterInOrder(keep, Front(xs), i, j);
    } else {
      var front, x := Front(xs), rest[i];
      FilterMembers(keep, front);
      assert x in rest;
      k :| 0 <= k < |front| && front[k] == x;
      l := |xs| - 1;
    }
  }
}
