/** Dictionaries of lists filled in one pass, in the order in which keys first appear. */
module Grouping {
  import opened Prelude

  /** The keys seen, in first-occurrence order, and under each key its members in order. */
  ghost predicate GroupedBy<T, K(!new)>(
    key: T -> K, member: K -> (T -> bool), xs: seq<T>, groups: map<K, seq<T>>, order: seq<K>)
  {
    && order == FirstOccurrences(Map(key, xs))
    && (forall k :: k in groups <==> k in order)
    && (forall k | k in groups :: groups[k] == Filter(member(k), xs))
  }

  /** Membership in a group means having its key. */
  ghost predicate ByKey<T(!new), K(!new)>(key: T -> K, member: K -> (T -> bool)) {
    forall k, x :: member(k)(x) <==> key(x) == k
  }

  lemma KeyInGroups<T, K(!new)>(
    key: T -> K, member: K -> (T -> bool), xs: seq<T>, groups: map<K, seq<T>>, order: seq<K>, x: T)
    requires GroupedBy(key, member, xs, groups, order) && x in xs
    ensures key(x) in groups
  {
    FirstOccurrencesDistinct(Map(key, xs));
    var i :| 0 <= i < |xs| && xs[i] == x;
    assert Map(key, xs)[i] == key(x);
    assert key(x) in Map(key, xs);
  }

  function Grown<T, K>(groups: map<K, seq<T>>, key: K, x: T): map<K, seq<T>> {
    groups[key := (if key in groups then groups[key] else []) + [x]]
  }

  /** Appending one member to its group. */
  lemma GroupStep<T(!new), K(!new)>(
    key: T -> K, member: K -> (T -> bool), xs: seq<T>, i: nat, groups: map<K, seq<T>>, order: seq<K>)
    requires i < |xs| && ByKey(key, member) && GroupedBy(key, member, xs[..i], groups, order)
    ensures GroupedBy(key, member, xs[..i + 1], Grown(groups, key(xs[i]), xs[i]),
                      if key(xs[i]) in groups then order else order + [key(xs[i])])
  {
    var k := key(xs[i]);
    Prefix(xs, i);
    var keys := Map(key, xs[..i + 1]);
    assert Front(keys) == Map(key, xs[..i]) && Last(keys) == k;
    if k !in groups {
      forall x | x in xs[..i]
        ensures !member(k)(x)
      {
        KeyInGroups(key, member, xs[..i], groups, order, x);
      }
      FilterNone(member(k), xs[..i]);
    }
    forall other | other in Grown(groups, k, xs[i])
      ensures Grown(groups, k, xs[i])[other] == Filter(member(other), xs[..i + 1])
    {
      assert member(other)(xs[i]) <==> other == k;
    }
  }
}
