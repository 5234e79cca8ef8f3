/** Python dictionaries, which remember insertion order: a sequence of
    key/value pairs whose keys are distinct. Assigning to a present key
    replaces its value where it stands; assigning to a new key appends. */
module Dicts {
  import opened Wrappers

  predicate DistinctKeys<K(==), V>(d: seq<(K, V)>) {
    forall i, j :: 0 <= i < j < |d| ==> d[i].0 != d[j].0
  }

  type Dict<K(==), V> = d: seq<(K, V)> | DistinctKeys(d) witness []

  function Keys<K, V>(d: seq<(K, V)>): (ks: seq<K>)
    ensures |ks| == |d|
    ensures forall i :: 0 <= i < |d| ==> ks[i] == d[i].0
  {
    seq(|d|, i requires 0 <= i < |d| => d[i].0)
  }

  function Values<K, V>(d: seq<(K, V)>): (vs: seq<V>)
    ensures |vs| == |d|
    ensures forall i :: 0 <= i < |d| ==> vs[i] == d[i].1
  {
    seq(|d|, i requires 0 <= i < |d| => d[i].1)
  }

  /** The position of key `k`, searching from the most recent entry. */
  function Find<K(==), V>(d: seq<(K, V)>, k: K): (r: Option<nat>)
    ensures r.None? <==> k !in Keys(d)
    ensures r.Some? ==> r.value < |d| && d[r.value].0 == k
    decreases |d|
  {
    if |d| == 0 then None
    else if d[|d| - 1].0 == k then Some(|d| - 1)
    else
      assert Keys(d) == Keys(d[..|d| - 1]) + [d[|d| - 1].0];
      Find(d[..|d| - 1], k)
  }

  /** In a dictionary a key has one position only. */
  lemma FindUnique<K, V>(d: Dict<K, V>, k: K, i: nat)
    requires i < |d| && d[i].0 == k
    ensures Find(d, k) == Some(i)
  {
    assert Keys(d)[i] == k;
  }

  /** Python's `d.get(k)`. */
  function Get<K(==), V>(d: seq<(K, V)>, k: K): (r: Option<V>)
    ensures r.Some? <==> k in Keys(d)
  {
    match Find(d, k)
    case None => None
    case Some(i) => Some(d[i].1)
  }

  lemma GetAt<K, V>(d: Dict<K, V>, i: nat)
    requires i < |d|
    ensures Get(d, d[i].0) == Some(d[i].1)
  {
    FindUnique(d, d[i].0, i);
  }

  /** Adding a key that is not yet present: the entry goes last. */
  function Insert<K(==), V>(d: Dict<K, V>, k: K, v: V): (r: Dict<K, V>)
    requires k !in Keys(d)
    ensures Keys(r) == Keys(d) + [k]
    ensures r[..|d|] == d && r[|d|] == (k, v)
  {
    var r := d + [(k, v)];
    assert r[..|d|] == d;
    r
  }

  /** Python's `d[k] = v`. */
  function Set<K(==,!new), V>(d: Dict<K, V>, k: K, v: V): (r: Dict<K, V>)
    ensures k !in Keys(d) ==> r == d + [(k, v)]
    ensures k in Keys(d) ==> exists i :: 0 <= i < |d| && d[i].0 == k && r == d[i := (k, v)]
    ensures Keys(r) == if k in Keys(d) then Keys(d) else Keys(d) + [k]
    ensures Get(r, k) == Some(v)
    ensures forall k' :: k' != k ==> Get(r, k') == Get(d, k')
  {
    match Find(d, k)
    case None =>
      var r := d + [(k, v)];
      assert Keys(r) == Keys(d) + [k];
      forall k' | k' != k ensures Get(r, k') == Get(d, k') {
        if k' in Keys(d) {
          var i :| 0 <= i < |d| && d[i].0 == k';
          GetAt(d, i);
          GetAt(r, i);
        }
      }
      GetAt(r, |d|);
      r
    case Some(i) =>
      var r := d[i := (k, v)];
      assert Keys(r) == Keys(d);
      forall k' | k' != k ensures Get(r, k') == Get(d, k') {
        if k' in Keys(d) {
          var j :| 0 <= j < |d| && d[j].0 == k';
          GetAt(d, j);
          GetAt(r, j);
        }
      }
      GetAt(r, i);
      r
  }

  /** After `d[k] = v` the keys are those of `d` and `k`. */
  lemma SetKeys<K(!new), V>(d: Dict<K, V>, k: K, v: V)
    ensures forall k' :: k' in Keys(Set(d, k, v)) <==> k' in Keys(d) || k' == k
  {
    var r := Set(d, k, v);
    assert Keys(r) == if k in Keys(d) then Keys(d) else Keys(d) + [k];
  }

  /** Assigning to a present key keeps the size. */
  lemma SetPresentSize<K(!new), V>(d: Dict<K, V>, k: K, v: V)
    requires k in Keys(d)
    ensures |Set(d, k, v)| == |d|
  {
    assert |Keys(Set(d, k, v))| == |Keys(d)|;
  }

  /** Assigning twice to one key is assigning the second value once. */
  lemma SetSet<K(!new), V>(d: Dict<K, V>, k: K, v1: V, v2: V)
    ensures Set(Set(d, k, v1), k, v2) == Set(d, k, v2)
  {
    var r1 := Set(d, k, v1);
    if k in Keys(d) {
      var i :| 0 <= i < |d| && d[i].0 == k && r1 == d[i := (k, v1)];
      var j :| 0 <= j < |r1| && r1[j].0 == k && Set(r1, k, v2) == r1[j := (k, v2)];
      var i' :| 0 <= i' < |d| && d[i'].0 == k && Set(d, k, v2) == d[i' := (k, v2)];
      assert j == i && i' == i;
    } else {
      assert r1 == d + [(k, v1)];
      assert r1[|d|].0 == k;
      var j :| 0 <= j < |r1| && r1[j].0 == k && Set(r1, k, v2) == r1[j := (k, v2)];
      assert j == |d|;
    }
  }

  /** Assigning each entry in turn, as a dictionary comprehension does. */
  function SetAll<K(!new), V>(d: Dict<K, V>, entries: seq<(K, V)>): Dict<K, V>
    decreases |entries|
  {
    if entries == [] then d
    else
      var n := |entries| - 1;
      Set(SetAll(d, entries[..n]), entries[n].0, entries[n].1)
  }

  /** The keys after assigning every entry: the old ones and the entries'. */
  lemma {:induction false} SetAllKeys<K(!new), V>(d: Dict<K, V>, entries: seq<(K, V)>)
    ensures forall k :: k in Keys(SetAll(d, entries)) <==> k in Keys(d) || k in Keys(entries)
    decreases |entries|
  {
    if entries != [] {
      var n := |entries| - 1;
      var front := entries[..n];
      SetAllKeys(d, front);
      SetKeys(SetAll(d, front), entries[n].0, entries[n].1);
      assert Keys(entries) == Keys(front) + [entries[n].0];
    }
  }

  /** Assigning entries whose keys are distinct and new appends them, in
      order. */
  lemma {:induction false} SetAllNew<K(!new), V>(d: Dict<K, V>, entries: seq<(K, V)>)
    requires DistinctKeys(entries)
    requires forall i :: 0 <= i < |entries| ==> entries[i].0 !in Keys(d)
    ensures SetAll(d, entries) == d + entries
    decreases |entries|
  {
    if entries == [] {
      assert d + entries == d;
    } else {
      var n := |entries| - 1;
      var front := entries[..n];
      assert DistinctKeys(front) by {
        assert forall i :: 0 <= i < n ==> front[i] == entries[i];
      }
      SetAllNew(d, front);
      assert entries[n].0 !in Keys(front) by {
        forall j | 0 <= j < n ensures Keys(front)[j] != entries[n].0 {
          assert front[j] == entries[j];
        }
      }
      SetAllStep(d, entries);
    }
  }

  /** The step of the induction above: the last key is new. */
  lemma SetAllStep<K(!new), V>(d: Dict<K, V>, entries: seq<(K, V)>)
    requires entries != []
    requires SetAll(d, entries[..|entries| - 1]) == d + entries[..|entries| - 1]
    requires entries[|entries| - 1].0 !in Keys(d) && entries[|entries| - 1].0 !in Keys(entries[..|entries| - 1])
    ensures SetAll(d, entries) == d + entries
  {
    var n := |entries| - 1;
    var front := entries[..n];
    var acc := SetAll(d, front);
    var e := entries[n];
    KeysAppend(d, front);
    assert e.0 !in Keys(acc);
    assert SetAll(d, entries) == Set(acc, e.0, e.1) == acc + [e];
    LastSplit(entries);
    AppendAssoc(d, front, [e]);
  }

  lemma KeysAppend<K, V>(a: seq<(K, V)>, b: seq<(K, V)>)
    ensures Keys(a + b) == Keys(a) + Keys(b)
  {
  }

  lemma AppendAssoc<T>(a: seq<T>, b: seq<T>, c: seq<T>)
    ensures (a + b) + c == a + (b + c)
  {
  }

  /** A non-empty sequence is its front followed by its last element. */
  lemma LastSplit<T>(s: seq<T>)
    requires s != []
    ensures s == s[..|s| - 1] + [s[|s| - 1]]
  {
  }

  /** A dictionary comprehension `{k: f(v) for k, v in d.items()}`. */
  function MapValues<K(==), V, W>(d: Dict<K, V>, f: V -> W): (r: Dict<K, W>)
    ensures Keys(r) == Keys(d)
    ensures forall i :: 0 <= i < |d| ==> r[i].1 == f(d[i].1)
  {
    var r := seq(|d|, i requires 0 <= i < |d| => (d[i].0, f(d[i].1)));
    assert forall i :: 0 <= i < |d| ==> r[i].0 == d[i].0;
    r
  }
}
