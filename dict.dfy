/**
 * A Python `dict` as the rating engine uses it: an association list that
 * remembers insertion order. Assigning to an existing key keeps that key's
 * position; assigning to a new key appends it.
 *
 * The functions carry no contracts of their own so that unfolding them is
 * cheap; what they mean is stated by the lemmas below them.
 */
module OrderedDict {

  type Dict<K, V> = seq<(K, V)>

  predicate DistinctKeys<K(==), V>(d: Dict<K, V>) {
    forall i, j :: 0 <= i < j < |d| ==> d[i].0 != d[j].0
  }

  /** `d.keys()` as a set. */
  function Keys<K, V>(d: Dict<K, V>): set<K> {
    if d == [] then {} else {d[0].0} + Keys(d[1..])
  }

  /** `d.get(k, default)` */
  function Get<K(==), V>(d: Dict<K, V>, k: K, default: V): V {
    if d == [] then default
    else if d[0].0 == k then d[0].1
    else Get(d[1..], k, default)
  }

  /** `d[k] = v` */
  function Set<K(==), V>(d: Dict<K, V>, k: K, v: V): Dict<K, V> {
    if d == [] then [(k, v)]
    else if d[0].0 == k then [(k, v)] + d[1..]
    else [d[0]] + Set(d[1..], k, v)
  }

  /** Every entry's key is a key of the dict. */
  lemma {:induction false} KeyAt<K, V>(d: Dict<K, V>, i: nat)
    requires i < |d|
    ensures d[i].0 in Keys(d)
  {
    if i > 0 {
      KeyAt(d[1..], i - 1);
    }
  }

  /** Every key of the dict is carried by some entry. */
  lemma {:induction false} KeyHasEntry<K, V>(d: Dict<K, V>, k: K) returns (i: nat)
    requires k in Keys(d)
    ensures i < |d| && d[i].0 == k
  {
    if d[0].0 == k {
      i := 0;
    } else {
      var j := KeyHasEntry(d[1..], k);
      i := j + 1;
    }
  }

  /** `get` returns the default for an absent key, and a stored value otherwise. */
  lemma {:induction false} GetFound<K, V>(d: Dict<K, V>, k: K, default: V)
    ensures k !in Keys(d) ==> Get(d, k, default) == default
    ensures k in Keys(d) ==> (k, Get(d, k, default)) in d
  {
    if d != [] && d[0].0 != k {
      GetFound(d[1..], k, default);
    }
  }

  /**
   * Assignment adds the key; an existing key keeps its position, a new key
   * goes at the end.
   */
  lemma {:induction false} SetShape<K, V>(d: Dict<K, V>, k: K, v: V)
    ensures Keys(Set(d, k, v)) == Keys(d) + {k}
    ensures k in Keys(d) ==> |Set(d, k, v)| == |d| && forall i :: 0 <= i < |d| ==> Set(d, k, v)[i].0 == d[i].0
    ensures k !in Keys(d) ==> Set(d, k, v) == d + [(k, v)]
  {
    if d != [] && d[0].0 != k {
      SetShape(d[1..], k, v);
      assert Set(d, k, v)[1..] == Set(d[1..], k, v);
    } else if d != [] {
      assert Set(d, k, v)[1..] == d[1..];
    }
  }

  /** Reading a key after an assignment sees the assigned value; other keys are untouched. */
  lemma {:induction false} GetSet<K, V>(d: Dict<K, V>, k: K, v: V, q: K, default: V)
    ensures Get(Set(d, k, v), q, default) == if q == k then v else Get(d, q, default)
  {
    if d != [] && d[0].0 != k {
      GetSet(d[1..], k, v, q, default);
      assert Set(d, k, v)[1..] == Set(d[1..], k, v);
    }
  }

  /** An assignment never introduces a duplicate key. */
  lemma SetKeepsKeysDistinct<K, V>(d: Dict<K, V>, k: K, v: V)
    requires DistinctKeys(d)
    ensures DistinctKeys(Set(d, k, v))
  {
    SetShape(d, k, v);
    if k !in Keys(d) {
      forall i | 0 <= i < |d|
        ensures d[i].0 != k
      {
        KeyAt(d, i);
      }
    }
  }

  /** Without duplicates there are as many keys as entries. */
  lemma {:induction false} KeysCardinality<K, V>(d: Dict<K, V>)
    requires DistinctKeys(d)
    ensures |Keys(d)| == |d|
  {
    if d != [] {
      KeysCardinality(d[1..]);
      if d[0].0 in Keys(d[1..]) {
        var i := KeyHasEntry(d[1..], d[0].0);
        assert false;
      }
    }
  }

  /** Without duplicates, an entry holds the value `get` returns for its key. */
  lemma {:induction false} EntryIsGet<K, V>(d: Dict<K, V>, k: K, v: V, default: V)
    requires DistinctKeys(d)
    requires (k, v) in d
    ensures Get(d, k, default) == v
  {
    if d[0] != (k, v) {
      var i :| 0 <= i < |d| && d[i] == (k, v);
      assert d[1..][i - 1] == (k, v);
      EntryIsGet(d[1..], k, v, default);
    }
  }
}
