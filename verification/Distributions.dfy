/** Probability distributions kept as insertion-ordered dictionaries. */
module Distributions {
  import opened Prelude

  datatype Entry = Entry(key: string, prob: real)

  type Dist = seq<Entry>

  predicate Has(d: Dist, key: string) {
    d != [] && (d[0].key == key || Has(d[1..], key))
  }

  /** No key occurs twice. */
  predicate IsDict(d: Dist) {
    d == [] || (!Has(d[1..], d[0].key) && IsDict(d[1..]))
  }

  /** Assigning to a present key replaces its value in place. */
  function Put(d: Dist, key: string, prob: real): Dist {
    if d == [] then [Entry(key, prob)]
    else if d[0].key == key then [Entry(key, prob)] + d[1..]
    else [d[0]] + Put(d[1..], key, prob)
  }

  function Get(d: Dist, key: string): real
    requires Has(d, key)
  {
    if d[0].key == key then d[0].prob else Get(d[1..], key)
  }

  lemma {:induction false} PutHas(d: Dist, key: string, prob: real, other: string)
    ensures Has(Put(d, key, prob), other) <==> Has(d, other) || other == key
  {
    if d != [] && d[0].key != key {
      PutHas(d[1..], key, prob, other);
      assert Put(d, key, prob)[1..] == Put(d[1..], key, prob);
    } else if d != [] {
      assert Put(d, key, prob)[1..] == d[1..];
    } else {
      assert Put(d, key, prob)[1..] == [];
    }
  }

  lemma {:induction false} PutIsDict(d: Dist, key: string, prob: real)
    requires IsDict(d)
    ensures IsDict(Put(d, key, prob))
  {
    if d == [] {
      assert Put(d, key, prob)[1..] == [];
    } else if d[0].key == key {
      assert Put(d, key, prob)[1..] == d[1..];
    } else {
      PutIsDict(d[1..], key, prob);
      PutHas(d[1..], key, prob, d[0].key);
      assert Put(d, key, prob)[1..] == Put(d[1..], key, prob);
    }
  }

  function Mass(d: Dist): real {
    if d == [] then 0.0 else d[0].prob + Mass(d[1..])
  }

  lemma {:induction false} MassOfNewKey(d: Dist, key: string, prob: real)
    requires !Has(d, key)
    ensures Mass(Put(d, key, prob)) == Mass(d) + prob
    ensures Put(d, key, prob) == d + [Entry(key, prob)]
  {
    if d != [] {
      MassOfNewKey(d[1..], key, prob);
      assert Put(d, key, prob)[1..] == Put(d[1..], key, prob);
    }
  }

  function Scaled(remaining: real): Entry -> Entry
    requires remaining != 0.0
  {
    (e: Entry) => Entry(e.key, e.prob / remaining)
  }

  function Ratio(x: real, y: real): real
    requires y != 0.0
  {
    x / y
  }

  lemma RatioAdds(x: real, y: real, r: real)
    requires r != 0.0
    ensures Ratio(x, r) + Ratio(y, r) == Ratio(x + y, r)
    ensures Ratio(r, r) == 1.0
    ensures Ratio(x, r) == 1.0 <==> x == r
  {
    assert Ratio(x, r) * r == x;
  }

  lemma {:induction false} MassScales(d: Dist, remaining: real)
    requires remaining != 0.0
    ensures Mass(Map(Scaled(remaining), d)) == Ratio(Mass(d), remaining)
    ensures forall key :: Has(Map(Scaled(remaining), d), key) <==> Has(d, key)
    ensures IsDict(d) ==> IsDict(Map(Scaled(remaining), d))
  {
    if d != [] {
      MassScales(d[1..], remaining);
      assert Map(Scaled(remaining), d)[1..] == Map(Scaled(remaining), d[1..]);
      RatioAdds(d[0].prob, Mass(d[1..]), remaining);
    }
  }

  // ----- the Brier score -----

  function SquaredMiss(e: Entry, observed: string): real {
    Square(e.prob - (if e.key == observed then 1.0 else 0.0))
  }

  function Square(x: real): real { x * x }

  function Brier(d: Dist, observed: string): real {
    if d == [] then 0.0 else SquaredMiss(d[0], observed) + Brier(d[1..], observed)
  }

  ghost predicate Nonnegative(d: Dist) { forall i | 0 <= i < |d| :: 0.0 <= d[i].prob }

  lemma {:induction false} NonnegativeMass(d: Dist)
    requires Nonnegative(d)
    ensures 0.0 <= Mass(d)
    ensures forall i | 0 <= i < |d| :: d[i].prob <= Mass(d)
  {
    if d != [] {
      NonnegativeMass(d[1..]);
      forall i | 0 <= i < |d|
        ensures d[i].prob <= Mass(d)
      {
        if i > 0 {
          assert d[i] == d[1..][i - 1];
        }
      }
    }
  }

  lemma MissBound(p: real)
    requires 0.0 <= p <= 1.0
    ensures 0.0 <= Square(p - 0.0) <= p
    ensures 0.0 <= Square(p - 1.0) <= 1.0
  {
    var q := 1.0 - p;
    assert (p - 1.0) * (p - 1.0) == q * q;
    assert p * p <= 1.0 * p && q * q <= 1.0 * q;
  }

  /** Only one entry can be the observed one, so a miss costs at most the mass plus one. */
  lemma {:induction false} BrierBound(d: Dist, observed: string)
    requires IsDict(d) && forall i | 0 <= i < |d| :: 0.0 <= d[i].prob <= 1.0
    ensures 0.0 <= Brier(d, observed) <= Mass(d) + if Has(d, observed) then 1.0 else 0.0
  {
    if d != [] {
      BrierBound(d[1..], observed);
      MissBound(d[0].prob);
    }
  }

  /** The multiclass Brier score of a proper distribution lies between 0 and 2. */
  lemma BrierRange(d: Dist, observed: string)
    requires IsDict(d) && Nonnegative(d) && Mass(d) == 1.0
    ensures 0.0 <= Brier(d, observed) <= 2.0
  {
    NonnegativeMass(d);
    BrierBound(d, observed);
  }
}
