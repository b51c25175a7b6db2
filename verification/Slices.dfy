/** Totals taken slice by slice: the sum over the slices of a list is the sum over the
    members that fall into some slice. */
module Slices {
  import opened Prelude

  function Weigh<T>(weight: T -> nat, xs: seq<T>): nat {
    if xs == [] then 0 else Weigh(weight, Front(xs)) + weight(Last(xs))
  }

  function HasKey<T, K(==)>(key: T -> K, k: K): T -> bool { (x: T) => key(x) == k }

  function KeyIn<T, K(==)>(key: T -> K, keys: seq<K>): T -> bool { (x: T) => key(x) in keys }

  /** Sum over the given keys of the weight of each key's slice. */
  function SliceTotal<T, K(==)>(key: T -> K, weight: T -> nat, xs: seq<T>, keys: seq<K>): nat {
    if keys == [] then 0
    else SliceTotal(key, weight, xs, Front(keys)) + Weigh(weight, Filter(HasKey(key, Last(keys)), xs))
  }

  lemma {:induction false} WeighAppend<T>(weight: T -> nat, xs: seq<T>, ys: seq<T>)
    ensures Weigh(weight, xs + ys) == Weigh(weight, xs) + Weigh(weight, ys)
  {
    if ys == [] {
      assert xs + ys == xs;
    } else {
      WeighAppend(weight, xs, Front(ys));
      assert Front(xs + ys) == xs + Front(ys);
    }
  }

  lemma {:induction false} SplitOffKey<T, K>(key: T -> K, weight: T -> nat, xs: seq<T>, keys: seq<K>, k: K)
    requires k !in keys
    ensures Weigh(weight, Filter(KeyIn(key, keys + [k]), xs))
         == Weigh(weight, Filter(KeyIn(key, keys), xs)) + Weigh(weight, Filter(HasKey(key, k), xs))
  {
    if xs != [] {
      SplitOffKey(key, weight, Front(xs), keys, k);
      var all, some, one :=
        Filter(KeyIn(key, keys + [k]), Front(xs)),
        Filter(KeyIn(key, keys), Front(xs)),
        Filter(HasKey(key, k), Front(xs));
      WeighAppend(weight, all, [Last(xs)]);
      WeighAppend(weight, some, [Last(xs)]);
      WeighAppend(weight, one, [Last(xs)]);
    }
  }

  /** Distinct slices never count a member twice. */
  lemma {:induction false} SlicesAddUp<T, K>(key: T -> K, weight: T -> nat, xs: seq<T>, keys: seq<K>)
    requires Distinct(keys)
    ensures SliceTotal(key, weight, xs, keys) == Weigh(weight, Filter(KeyIn(key, keys), xs))
  {
    if keys == [] {
      FilterNone(KeyIn(key, keys), xs);
    } else {
      FrontDistinct(keys);
      SlicesAddUp(key, weight, xs, Front(keys));
      SplitOffKey(key, weight, xs, Front(keys), Last(keys));
      Split(keys);
    }
  }

  function KeysOf<T, K(==)>(key: T -> K, xs: seq<T>): seq<K> { FirstOccurrences(Map(key, xs)) }

  lemma OwnKeyOccurs<T, K>(key: T -> K, xs: seq<T>, i: nat)
    requires i < |xs|
    ensures key(xs[i]) in KeysOf(key, xs)
  {
    FirstOccurrencesDistinct(Map(key, xs));
    var k := Map(key, xs)[i];
    assert k in Map(key, xs);
    assert k in FirstOccurrences(Map(key, xs));
  }

  lemma AllKeysOccur<T, K>(key: T -> K, xs: seq<T>)
    ensures Filter(KeyIn(key, KeysOf(key, xs)), xs) == xs
  {
    forall x | x in xs
      ensures KeyIn(key, KeysOf(key, xs))(x)
    {
      var i :| 0 <= i < |xs| && xs[i] == x;
      OwnKeyOccurs(key, xs, i);
    }
    FilterAll(KeyIn(key, KeysOf(key, xs)), xs);
  }

  lemma KeysDistinct<T, K>(key: T -> K, xs: seq<T>)
    ensures Distinct(KeysOf(key, xs))
  {
    FirstOccurrencesDistinct(Map(key, xs));
  }

  /** Slicing by the keys that occur loses nothing. */
  lemma OwnSlicesCoverEverything<T, K>(key: T -> K, weight: T -> nat, xs: seq<T>)
    ensures SliceTotal(key, weight, xs, KeysOf(key, xs)) == Weigh(weight, xs)
  {
    KeysDistinct(key, xs);
    SlicesAddUp(key, weight, xs, KeysOf(key, xs));
    AllKeysOccur(key, xs);
  }

  function One<T>(): T -> nat { (x: T) => 1 }

  lemma {:induction false} WeighOnes<T>(xs: seq<T>)
    ensures Weigh(One(), xs) == |xs|
  {
    if xs != [] {
      WeighOnes(Front(xs));
    }
  }

  /** Slicing by a fixed list of keys counts everything exactly when every member's
      key is on the list. */
  lemma FixedSlicesCountAllIff<T, K>(key: T -> K, xs: seq<T>, keys: seq<K>)
    requires Distinct(keys)
    ensures SliceTotal(key, One(), xs, keys) == |xs| <==> forall x | x in xs :: key(x) in keys
  {
    SlicesAddUp(key, One(), xs, keys);
    WeighOnes(Filter(KeyIn(key, keys), xs));
    FullFilter(KeyIn(key, keys), xs);
  }

  lemma {:induction false} FullFilter<T>(keep: T -> bool, xs: seq<T>)
    ensures |Filter(keep, xs)| == |xs| <==> forall x | x in xs :: keep(x)
    ensures |Filter(keep, xs)| <= |xs|
  {
    if xs != [] {
      FullFilter(keep, Front(xs));
      Split(xs);
    }
  }
}
