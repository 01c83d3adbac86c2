/** Python's dict where its insertion order or its size matters: a list of
    (key, value) entries with distinct keys, in insertion order. Assigning to a
    key that is present replaces its value in place; a new key goes at the end. */
module Dicts {

  type Dict<K, V> = seq<(K, V)>

  function Keys<K, V>(d: Dict<K, V>): (ks: seq<K>)
    ensures |ks| == |d| && forall i :: 0 <= i < |d| ==> ks[i] == d[i].0
  {
    if d == [] then [] else [d[0].0] + Keys(d[1..])
  }

  predicate DistinctKeys<K(==), V>(d: Dict<K, V>) {
    forall i, j :: 0 <= i < j < |d| ==> d[i].0 != d[j].0
  }

  /** d[k] for a key that is present. */
  function Get<K(==), V>(d: Dict<K, V>, k: K): V
    requires k in Keys(d)
  {
    if d[0].0 == k then d[0].1 else Get(d[1..], k)
  }

  /** d.get(k, default). */
  function GetOr<K(==), V>(d: Dict<K, V>, k: K, default: V): V {
    if k in Keys(d) then Get(d, k) else default
  }

  lemma {:induction false} GetAt<K, V>(d: Dict<K, V>, i: nat)
    requires DistinctKeys(d) && i < |d|
    ensures d[i].0 in Keys(d) && Get(d, d[i].0) == d[i].1
  {
    if i > 0 { GetAt(d[1..], i - 1); }
  }

  /** d[k] = v. */
  function Put<K(==), V>(d: Dict<K, V>, k: K, v: V): (r: Dict<K, V>)
    ensures Keys(r) == if k in Keys(d) then Keys(d) else Keys(d) + [k]
    ensures |r| == if k in Keys(d) then |d| else |d| + 1
    ensures k in Keys(r) && Get(r, k) == v
  {
    if d == [] then [(k, v)]
    else if d[0].0 == k then [(k, v)] + d[1..]
    else
      var r := [d[0]] + Put(d[1..], k, v);
      assert Keys(r) == [d[0].0] + Keys(Put(d[1..], k, v));
      assert Keys(d) == [d[0].0] + Keys(d[1..]);
      r
  }

  /** d[k] = v leaves the other keys' values alone. */
  lemma {:induction false} PutOther<K, V>(d: Dict<K, V>, k: K, v: V, k': K)
    requires k' != k && k' in Keys(d)
    ensures k' in Keys(Put(d, k, v)) && Get(Put(d, k, v), k') == Get(d, k')
  {
    if d[0].0 != k' && d[0].0 != k {
      assert Keys(d) == [d[0].0] + Keys(d[1..]);
      PutOther(d[1..], k, v, k');
      assert Put(d, k, v) == [d[0]] + Put(d[1..], k, v);
    }
  }

  /** d[d[i].0] = v replaces entry i and nothing else. */
  lemma {:induction false} PutAt<K, V>(d: Dict<K, V>, i: nat, v: V)
    requires DistinctKeys(d) && i < |d|
    ensures |Put(d, d[i].0, v)| == |d| && Put(d, d[i].0, v)[i] == (d[i].0, v)
    ensures forall j :: 0 <= j < |d| && j != i ==> Put(d, d[i].0, v)[j] == d[j]
  {
    if i > 0 {
      DistinctTail(d);
      assert d[0].0 != d[i].0;
      PutAt(d[1..], i - 1, v);
      assert Put(d, d[i].0, v) == [d[0]] + Put(d[1..], d[i].0, v);
    }
  }

  /** d[k] = v keeps the keys distinct. */
  lemma {:induction false} PutDistinct<K, V>(d: Dict<K, V>, k: K, v: V)
    requires DistinctKeys(d)
    ensures DistinctKeys(Put(d, k, v))
  {
    if d != [] {
      DistinctTail(d);
      if d[0].0 == k {
        DistinctCons((k, v), d[1..]);
      } else {
        PutDistinct(d[1..], k, v);
        DistinctCons(d[0], Put(d[1..], k, v));
      }
    }
  }

  lemma DistinctTail<K, V>(d: Dict<K, V>)
    requires DistinctKeys(d) && d != []
    ensures DistinctKeys(d[1..]) && d[0].0 !in Keys(d[1..])
  {
    var t := d[1..];
    forall i, j | 0 <= i < j < |t| ensures t[i].0 != t[j].0 {
      assert t[i] == d[i + 1] && t[j] == d[j + 1];
    }
    forall i | 0 <= i < |t| ensures Keys(t)[i] != d[0].0 {
      assert Keys(t)[i] == d[i + 1].0;
    }
  }

  lemma DistinctCons<K, V>(x: (K, V), t: Dict<K, V>)
    requires DistinctKeys(t) && x.0 !in Keys(t)
    ensures DistinctKeys([x] + t)
  {
    var r := [x] + t;
    forall i, j | 0 <= i < j < |r| ensures r[i].0 != r[j].0 {
      if i == 0 {
        assert r[j].0 == Keys(t)[j - 1];
      } else {
        assert r[i] == t[i - 1] && r[j] == t[j - 1];
      }
    }
  }

  /** The number of entries whose value is True: sum(1 for v in d.values() if v). */
  function CountTrue<K>(d: Dict<K, bool>): (n: nat)
    ensures n <= |d|
  {
    if d == [] then 0 else (if d[0].1 then 1 else 0) + CountTrue(d[1..])
  }

  lemma {:induction false} CountTruePositive<K>(d: Dict<K, bool>)
    ensures CountTrue(d) > 0 <==> exists i :: 0 <= i < |d| && d[i].1
  {
    if d != [] {
      CountTruePositive(d[1..]);
      assert forall i :: 0 < i < |d| ==> d[i] == d[1..][i - 1];
    }
  }

  /** How a single assignment changes the number of True values. */
  lemma {:induction false} CountTruePut<K>(d: Dict<K, bool>, k: K, v: bool)
    ensures CountTrue(Put(d, k, v)) + (if k in Keys(d) && Get(d, k) then 1 else 0)
         == CountTrue(d) + (if v then 1 else 0)
  {
    if d != [] && d[0].0 != k {
      CountTruePut(d[1..], k, v);
      assert Put(d, k, v) == [d[0]] + Put(d[1..], k, v);
      assert Keys(d) == [d[0].0] + Keys(d[1..]);
    }
  }

  /** The dict that `for i in range(len(ks)): d[ks[i]] = vs[i]` builds from {}. */
  function FromPairs<K(==), V>(ks: seq<K>, vs: seq<V>): (r: Dict<K, V>)
    requires |ks| == |vs|
    ensures DistinctKeys(r)
  {
    if ks == [] then []
    else
      var n := |ks| - 1;
      PutDistinct(FromPairs(ks[..n], vs[..n]), ks[n], vs[n]);
      Put(FromPairs(ks[..n], vs[..n]), ks[n], vs[n])
  }

  /** Exactly the assigned keys are present. */
  lemma {:induction false} FromPairsMembers<K, V>(ks: seq<K>, vs: seq<V>, x: K)
    requires |ks| == |vs|
    ensures x in Keys(FromPairs(ks, vs)) <==> x in ks
  {
    if ks != [] {
      var n := |ks| - 1;
      FromPairsMembers(ks[..n], vs[..n], x);
      assert ks == ks[..n] + [ks[n]];
    }
  }

  /** Each key holds the value assigned to it last. */
  lemma {:induction false} FromPairsGet<K, V>(ks: seq<K>, vs: seq<V>, i: nat)
    requires |ks| == |vs| && i < |ks| && ks[i] !in ks[i + 1..]
    ensures ks[i] in Keys(FromPairs(ks, vs)) && Get(FromPairs(ks, vs), ks[i]) == vs[i]
  {
    var n := |ks| - 1;
    if i < n {
      assert ks[n] in ks[i + 1..];
      assert ks[..n][i + 1..] == ks[i + 1..n];
      FromPairsGet(ks[..n], vs[..n], i);
      PutOther(FromPairs(ks[..n], vs[..n]), ks[n], vs[n], ks[i]);
    }
  }

  /** No element occurs twice. */
  predicate NoRepeats<K(==)>(ks: seq<K>) {
    forall i, j :: 0 <= i < j < |ks| ==> ks[i] != ks[j]
  }

  lemma NoRepeatsFront<K>(ks: seq<K>)
    requires NoRepeats(ks) && |ks| > 0
    ensures NoRepeats(ks[..|ks| - 1]) && ks[|ks| - 1] !in ks[..|ks| - 1]
  {
    var front := ks[..|ks| - 1];
    forall i, j | 0 <= i < j < |front| ensures front[i] != front[j] {
      assert front[i] == ks[i] && front[j] == ks[j];
    }
    forall i | 0 <= i < |front| ensures front[i] != ks[|ks| - 1] { assert front[i] == ks[i]; }
  }

  /** Without repeated keys the dict lists them in assignment order. */
  lemma {:induction false} FromPairsKeys<K, V>(ks: seq<K>, vs: seq<V>)
    requires |ks| == |vs| && NoRepeats(ks)
    ensures Keys(FromPairs(ks, vs)) == ks
  {
    if ks != [] {
      var n := |ks| - 1;
      NoRepeatsFront(ks);
      FromPairsKeys(ks[..n], vs[..n]);
      FromPairsMembers(ks[..n], vs[..n], ks[n]);
      FromPairsLast(ks, vs);
      assert ks[..n] + [ks[n]] == ks;
    }
  }

  /** Assigning a key that was never assigned appends it. */
  lemma FromPairsLast<K, V>(ks: seq<K>, vs: seq<V>)
    requires |ks| == |vs| && |ks| > 0 && ks[|ks| - 1] !in Keys(FromPairs(ks[..|ks| - 1], vs[..|vs| - 1]))
    ensures Keys(FromPairs(ks, vs)) == Keys(FromPairs(ks[..|ks| - 1], vs[..|vs| - 1])) + [ks[|ks| - 1]]
  {
  }

  /** One more assignment: the dict of the first i + 1 pairs. */
  lemma FromPairsStep<K, V>(ks: seq<K>, vs: seq<V>, i: nat)
    requires |ks| == |vs| && i < |ks|
    ensures FromPairs(ks[..i + 1], vs[..i + 1]) == Put(FromPairs(ks[..i], vs[..i]), ks[i], vs[i])
  {
    assert ks[..i + 1][..i] == ks[..i] && vs[..i + 1][..i] == vs[..i];
  }

  /** The dict of all the pairs, written as the dict of the whole prefix. */
  lemma FromPairsWhole<K, V>(ks: seq<K>, vs: seq<V>)
    requires |ks| == |vs|
    ensures FromPairs(ks[..|ks|], vs[..|ks|]) == FromPairs(ks, vs)
  {
    assert ks[..|ks|] == ks;
    assert vs[..|ks|] == vs;
  }

  /** sum(len(v) for v in d.values()) for a dict of dicts. */
  function TotalEntries<K, K2, V>(d: Dict<K, Dict<K2, V>>): nat {
    if d == [] then 0 else TotalEntries(d[..|d| - 1]) + |d[|d| - 1].1|
  }

  /** The number of True values over all the inner dicts. */
  function TotalTrue<K, K2>(d: Dict<K, Dict<K2, bool>>): (n: nat)
    ensures n <= TotalEntries(d)
  {
    if d == [] then 0 else TotalTrue(d[..|d| - 1]) + CountTrue(d[|d| - 1].1)
  }
}

