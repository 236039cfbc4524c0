/**
 * A Python dict as the deduplication in the Dunya client uses it: a map
 * plus the order in which its keys were first inserted. Assigning to a key
 * that is already present replaces the value and keeps the key's position;
 * a new key goes to the end.
 */
module PyDict {

  datatype Dict<K, V> = Dict(order: seq<K>, entries: map<K, V>)

  ghost predicate Distinct<K>(ks: seq<K>)
  {
    forall i, j :: 0 <= i < j < |ks| ==> ks[i] != ks[j]
  }

  /** The insertion order lists every key of the map exactly once. */
  ghost predicate Valid<K, V>(d: Dict<K, V>)
  {
    && Distinct(d.order)
    && (forall k :: k in d.entries ==> k in d.order)
    && (forall k :: k in d.order ==> k in d.entries)
  }

  function Empty<K, V>(): (d: Dict<K, V>)
    ensures Valid(d) && d.order == []
  {
    Dict([], map[])
  }

  /** `d[k] = v`. */
  function Put<K, V>(d: Dict<K, V>, k: K, v: V): (r: Dict<K, V>)
    requires Valid(d)
    ensures Valid(r)
    ensures k in r.entries && r.entries[k] == v
    ensures r.entries.Keys == d.entries.Keys + {k}
    ensures forall k' :: k' != k && k' in d.entries ==> r.entries[k'] == d.entries[k']
    ensures k in d.entries ==> r.order == d.order
    ensures k !in d.entries ==> r.order == d.order + [k]
  {
    if k in d.entries then Dict(d.order, d.entries[k := v])
    else Dict(d.order + [k], d.entries[k := v])
  }

  /** The keys of a sequence of key/value pairs. */
  function Keys<K, V>(ps: seq<(K, V)>): (ks: seq<K>)
    ensures |ks| == |ps|
    ensures forall i :: 0 <= i < |ps| ==> ks[i] == ps[i].0
  {
    if ps == [] then [] else Keys(ps[..|ps| - 1]) + [ps[|ps| - 1].0]
  }

  /** `{k: v for (k, v) in ps}`: one assignment per pair, in order. */
  function FromPairs<K, V>(ps: seq<(K, V)>): (d: Dict<K, V>)
    ensures Valid(d)
    ensures forall k :: k in d.entries ==> k in Keys(ps)
    ensures forall k :: k in Keys(ps) ==> k in d.entries
  {
    if ps == [] then Empty()
    else
      var n := |ps| - 1;
      Put(FromPairs(ps[..n]), ps[n].0, ps[n].1)
  }

  /** `list(d.values())`: the values in key-insertion order. */
  function Values<K, V>(d: Dict<K, V>): (vs: seq<V>)
    requires Valid(d)
    ensures |vs| == |d.order|
    ensures forall i :: 0 <= i < |vs| ==> vs[i] == d.entries[d.order[i]]
  {
    seq(|d.order|, i requires 0 <= i < |d.order| => d.entries[d.order[i]])
  }

  /** Index `j` holds the last pair with its key. */
  ghost predicate LastWithKey<K, V>(ps: seq<(K, V)>, j: int)
  {
    && 0 <= j < |ps|
    && forall j' :: j < j' < |ps| ==> ps[j'].0 != ps[j].0
  }

  /** The position of the first occurrence of `k`, or `|ks|` when there is none. */
  ghost function FirstIndex<K>(ks: seq<K>, k: K): (i: nat)
    ensures i <= |ks|
    ensures i < |ks| <==> k in ks
    ensures i < |ks| ==> ks[i] == k
    ensures forall j :: 0 <= j < i ==> ks[j] != k
  {
    if ks == [] then 0 else if ks[0] == k then 0 else 1 + FirstIndex(ks[1..], k)
  }

  lemma FirstIndexUnique<K>(ks: seq<K>, k: K, i: nat)
    requires i < |ks| && ks[i] == k
    requires forall j :: 0 <= j < i ==> ks[j] != k
    ensures FirstIndex(ks, k) == i
  {
  }

  /** Keys listed in the order of their first occurrence in `ks`. */
  ghost predicate InFirstOccurrenceOrder<K>(ks: seq<K>, o: seq<K>)
  {
    forall i, j :: 0 <= i < j < |o| ==> FirstIndex(ks, o[i]) < FirstIndex(ks, o[j])
  }

  /** Appending to a sequence does not move the first occurrence of a key already in it. */
  lemma FirstIndexExtend<K>(ks: seq<K>, x: K, k: K)
    requires k in ks
    ensures FirstIndex(ks + [x], k) == FirstIndex(ks, k)
  {
    var i := FirstIndex(ks, k);
    FirstIndexUnique(ks + [x], k, i);
  }

  /** Last write wins: each key maps to the value of the last pair carrying it. */
  lemma {:induction false} LastWins<K, V>(ps: seq<(K, V)>, k: K)
    requires k in FromPairs(ps).entries
    ensures exists j :: LastWithKey(ps, j) && ps[j] == (k, FromPairs(ps).entries[k])
  {
    var j := LastIndexOf(ps, k);
    assert LastWithKey(ps, j) && ps[j] == (k, FromPairs(ps).entries[k]);
  }

  /** The index of the last pair with key `k`, whose value the dict holds. */
  lemma {:induction false} LastIndexOf<K, V>(ps: seq<(K, V)>, k: K) returns (j: nat)
    requires k in FromPairs(ps).entries
    ensures LastWithKey(ps, j) && ps[j].0 == k && ps[j].1 == FromPairs(ps).entries[k]
  {
    var n := |ps| - 1;
    if ps[n].0 == k {
      LastPairWins(ps);
      j := n;
    } else {
      EarlierPairKept(ps, k);
      j := LastIndexOf(ps[..n], k);
      assert ps[..n][j] == ps[j];
      LastWithKeyExtend(ps, j);
    }
  }

  lemma LastPairWins<K, V>(ps: seq<(K, V)>)
    requires ps != []
    ensures LastWithKey(ps, |ps| - 1)
    ensures FromPairs(ps).entries[ps[|ps| - 1].0] == ps[|ps| - 1].1
  {
  }

  lemma EarlierPairKept<K, V>(ps: seq<(K, V)>, k: K)
    requires ps != [] && ps[|ps| - 1].0 != k
    ensures k in FromPairs(ps).entries <==> k in FromPairs(ps[..|ps| - 1]).entries
    ensures k in FromPairs(ps).entries ==> FromPairs(ps).entries[k] == FromPairs(ps[..|ps| - 1]).entries[k]
  {
  }

  lemma LastWithKeyExtend<K, V>(ps: seq<(K, V)>, j: nat)
    requires ps != [] && LastWithKey(ps[..|ps| - 1], j) && ps[|ps| - 1].0 != ps[j].0
    ensures LastWithKey(ps, j)
  {
    assert forall j' :: j < j' < |ps| - 1 ==> ps[j'] == ps[..|ps| - 1][j'];
  }

  /** The keys come out in the order of their first occurrence. */
  lemma {:induction false} FirstOccurrenceOrder<K, V>(ps: seq<(K, V)>)
    ensures InFirstOccurrenceOrder(Keys(ps), FromPairs(ps).order)
  {
    if ps != [] {
      var n := |ps| - 1;
      var prefix := ps[..n];
      FirstOccurrenceOrder(prefix);
      var o := FromPairs(prefix).order;
      assert forall y :: y in o ==> y in Keys(prefix);
      OrderStep(ps);
      if FromPairs(ps).order == o {
        OrderKept(Keys(prefix), ps[n].0, o);
      } else {
        OrderAppended(Keys(prefix), ps[n].0, o);
      }
    }
  }

  /** A key order stays in first-occurrence order when the sequence grows. */
  lemma OrderKept<K>(ks: seq<K>, x: K, o: seq<K>)
    requires InFirstOccurrenceOrder(ks, o)
    requires forall y :: y in o ==> y in ks
    ensures InFirstOccurrenceOrder(ks + [x], o)
  {
    forall i | 0 <= i < |o| ensures FirstIndex(ks + [x], o[i]) == FirstIndex(ks, o[i]) {
      FirstIndexExtend(ks, x, o[i]);
    }
  }

  /** A key seen for the first time goes after every key seen before. */
  lemma OrderAppended<K>(ks: seq<K>, x: K, o: seq<K>)
    requires InFirstOccurrenceOrder(ks, o)
    requires forall y :: y in o ==> y in ks
    requires x !in ks
    ensures InFirstOccurrenceOrder(ks + [x], o + [x])
  {
    OrderKept(ks, x, o);
    FirstIndexUnique(ks + [x], x, |ks|);
    var o' := o + [x];
    forall i, j | 0 <= i < j < |o'| ensures FirstIndex(ks + [x], o'[i]) < FirstIndex(ks + [x], o'[j]) {
      if j == |o| {
        assert o'[i] == o[i] && o[i] in ks;
        FirstIndexExtend(ks, x, o[i]);
      } else {
        assert o'[i] == o[i] && o'[j] == o[j];
      }
    }
  }

  /** One more pair either leaves the key order alone or appends a new key. */
  lemma OrderStep<K, V>(ps: seq<(K, V)>)
    requires ps != []
    ensures Keys(ps) == Keys(ps[..|ps| - 1]) + [ps[|ps| - 1].0]
    ensures || FromPairs(ps).order == FromPairs(ps[..|ps| - 1]).order
            || (&& ps[|ps| - 1].0 !in Keys(ps[..|ps| - 1])
                && FromPairs(ps).order == FromPairs(ps[..|ps| - 1]).order + [ps[|ps| - 1].0])
  {
    var n := |ps| - 1;
    var d := FromPairs(ps[..n]);
    assert FromPairs(ps) == Put(d, ps[n].0, ps[n].1);
  }

  /** When no key repeats, the dict keeps every pair, in order. */
  lemma {:induction false} DistinctKeysKept<K, V>(ps: seq<(K, V)>)
    requires Distinct(Keys(ps))
    ensures FromPairs(ps).order == Keys(ps)
    ensures forall i :: 0 <= i < |ps| ==> FromPairs(ps).entries[ps[i].0] == ps[i].1
  {
    if ps != [] {
      var n := |ps| - 1;
      var prefix := ps[..n];
      assert Keys(ps) == Keys(prefix) + [ps[n].0];
      assert Distinct(Keys(prefix));
      DistinctKeysKept(prefix);
      assert ps[n].0 !in Keys(prefix);
    }
  }

  /** When no key repeats, the values come out as the pairs' values, in order. */
  lemma DistinctKeysValues<K, V>(ps: seq<(K, V)>)
    requires Distinct(Keys(ps))
    ensures |Values(FromPairs(ps))| == |ps|
    ensures forall i :: 0 <= i < |ps| ==> Values(FromPairs(ps))[i] == ps[i].1
  {
    DistinctKeysKept(ps);
  }
}
