/** Orders in which a Go `range` over a map may visit its keys. */
module Enumerations {
  /* ---------------------------------------------------------------- map iteration orders */

  /**
   * `order` lists every key of `keys` once and nothing else: one of the
   * orders in which a `range` over a Go map with these keys may visit them.
   */
  ghost predicate IsEnumeration(order: seq<string>, keys: set<string>)
  {
    && (forall i, j :: 0 <= i < j < |order| ==> order[i] != order[j])
    && (forall i :: 0 <= i < |order| ==> order[i] in keys)
    && (forall k :: k in keys ==> k in order)
  }

  /** Some enumeration of a finite set of keys. */
  ghost function Enumerate(keys: set<string>): (order: seq<string>)
    ensures IsEnumeration(order, keys)
    decreases |keys|
  {
    if keys == {} then []
    else
      var k :| k in keys;
      [k] + Enumerate(keys - {k})
  }

  lemma EnumerationConcat(a: seq<string>, ka: set<string>, b: seq<string>, kb: set<string>)
    requires IsEnumeration(a, ka) && IsEnumeration(b, kb) && ka !! kb
    ensures IsEnumeration(a + b, ka + kb)
  {
    forall k | k in ka + kb ensures k in a + b {
      if k in ka {
        assert k in a;
      } else {
        assert k in b;
      }
    }
  }

  lemma EnumerationSingle(k: string)
    ensures IsEnumeration([k], {k})
  {
  }

  /** The keys visited so far grow by the one just taken from the unvisited ones. */
  lemma TakeNext(keys: set<string>, todo: set<string>, k: string)
    requires k in todo && todo <= keys
    ensures keys - todo + {k} == keys - (todo - {k})
  {
  }

  /** Removing a key and adding it back changes nothing. */
  lemma PutBack(keys: set<string>, k: string)
    requires k in keys
    ensures keys - {k} + {k} == keys
  {
  }

  /** Updating the right operand of a map union updates the union. */
  lemma UnionUpdate<K, V>(base: map<K, V>, a: map<K, V>, k: K, v: V)
    ensures base + a[k := v] == (base + a)[k := v]
  {
  }

  /** Dropping the last key of an enumeration enumerates the other keys. */
  lemma EnumerationInit(order: seq<string>, keys: set<string>)
    requires IsEnumeration(order, keys) && order != []
    ensures IsEnumeration(order[..|order| - 1], keys - {order[|order| - 1]})
  {
    var init, last := order[..|order| - 1], order[|order| - 1];
    forall k | k in keys - {last} ensures k in init {
      assert k in order;
      var i :| 0 <= i < |order| && order[i] == k;
      assert init[i] == k;
    }
  }

  /** An enumeration has one entry per key. */
  lemma {:induction false} EnumerationLength(order: seq<string>, keys: set<string>)
    requires IsEnumeration(order, keys)
    ensures |order| == |keys|
  {
    if order == [] {
      assert keys == {} by {
        forall k | k in keys ensures k in order {
        }
      }
    } else {
      var last := order[|order| - 1];
      EnumerationInit(order, keys);
      EnumerationLength(order[..|order| - 1], keys - {last});
    }
  }

  /** The entries of `order` that satisfy `p`, in their order. */
  function Filter(order: seq<string>, p: string -> bool): (r: seq<string>)
    ensures forall i :: 0 <= i < |r| ==> p(r[i]) && r[i] in order
  {
    if order == [] then []
    else Filter(order[..|order| - 1], p) + (if p(order[|order| - 1]) then [order[|order| - 1]] else [])
  }

  /** Filtering an enumeration enumerates the keys that satisfy the filter. */
  lemma {:induction false} FilterEnumeration(order: seq<string>, keys: set<string>, p: string -> bool)
    requires IsEnumeration(order, keys)
    ensures IsEnumeration(Filter(order, p), set k | k in keys && p(k))
  {
    if order != [] {
      var init, last := order[..|order| - 1], order[|order| - 1];
      EnumerationInit(order, keys);
      FilterEnumeration(init, keys - {last}, p);
      var rest := set k | k in keys - {last} && p(k);
      if p(last) {
        EnumerationSingle(last);
        EnumerationConcat(Filter(init, p), rest, [last], {last});
        assert rest + {last} == set k | k in keys && p(k);
      } else {
        assert rest == set k | k in keys && p(k);
      }
    }
  }

  /** Visiting one more key `k` of the keys still to do extends the enumeration of those done. */
  lemma EnumerationExtend(order: seq<string>, keys: set<string>, todo: set<string>, k: string)
    requires todo <= keys && IsEnumeration(order, keys - todo) && k in todo
    ensures IsEnumeration(order + [k], keys - (todo - {k}))
    ensures (order + [k])[..|order|] == order
  {
    EnumerationSingle(k);
    EnumerationConcat(order, keys - todo, [k], {k});
    assert keys - todo + {k} == keys - (todo - {k});
  }
}
