// A Python dictionary: keys in order of first insertion, later assignments replace in place.
module OrderedDict {
  import opened Models

  type Dict<K, V> = seq<(K, V)>

  function Put<K(==), V>(d: Dict<K, V>, k: K, v: V): Dict<K, V> {
    if d == [] then [(k, v)]
    else if d[0].0 == k then [(k, v)] + d[1..]
    else [d[0]] + Put(d[1..], k, v)
  }

  function Find<K(==), V>(d: Dict<K, V>, k: K): Option<V> {
    if d == [] then None else if d[0].0 == k then Some(d[0].1) else Find(d[1..], k)
  }

  /** `{key: value for ...}` */
  function FromPairs<K(==), V>(ps: seq<(K, V)>): Dict<K, V> {
    if ps == [] then []
    else
      var n := |ps| - 1;
      Put(FromPairs(ps[..n]), ps[n].0, ps[n].1)
  }

  function Values<K, V>(d: Dict<K, V>): (vs: seq<V>)
    ensures |vs| == |d| && forall i :: 0 <= i < |d| ==> vs[i] == d[i].1
  {
    seq(|d|, i requires 0 <= i < |d| => d[i].1)
  }

  ghost predicate DistinctKeys<K, V>(d: seq<(K, V)>) {
    forall i, j :: 0 <= i < j < |d| ==> d[i].0 != d[j].0
  }

  ghost predicate HasKey<K, V>(d: seq<(K, V)>, k: K) {
    exists i :: 0 <= i < |d| && d[i].0 == k
  }

  /** Assigning to a new key appends. */
  lemma {:induction false} PutNew<K, V>(d: Dict<K, V>, k: K, v: V)
    requires !HasKey(d, k)
    ensures Put(d, k, v) == d + [(k, v)]
  {
    if d != [] {
      forall i | 0 <= i < |d[1..]| ensures d[1..][i].0 != k {
        assert d[i + 1].0 != k;
      }
      PutNew(d[1..], k, v);
      assert d == [d[0]] + d[1..];
    }
  }

  /** Assigning to an old key replaces at its place. */
  lemma {:induction false} PutOld<K, V>(d: Dict<K, V>, i: nat, v: V)
    requires i < |d| && DistinctKeys(d)
    ensures Put(d, d[i].0, v) == d[i := (d[i].0, v)]
  {
    if i > 0 {
      PutOld(d[1..], i - 1, v);
      assert [d[0]] + d[1..][i - 1 := (d[i].0, v)] == d[i := (d[i].0, v)];
    }
  }

  /** A lookup after an assignment. */
  lemma {:induction false} FindPut<K, V>(d: Dict<K, V>, k: K, v: V, q: K)
    ensures Find(Put(d, k, v), q) == if q == k then Some(v) else Find(d, q)
  {
    if d != [] && d[0].0 != k {
      FindPut(d[1..], k, v, q);
      assert Put(d, k, v)[1..] == Put(d[1..], k, v);
    } else if d != [] {
      assert Put(d, k, v)[1..] == d[1..];
    }
  }

  lemma PutShape<K, V>(d: Dict<K, V>, k: K, v: V)
    requires DistinctKeys(d)
    ensures DistinctKeys(Put(d, k, v))
    ensures forall q :: HasKey(Put(d, k, v), q) <==> HasKey(d, q) || q == k
    ensures |Put(d, k, v)| == if HasKey(d, k) then |d| else |d| + 1
  {
    var r := Put(d, k, v);
    if HasKey(d, k) {
      var p :| 0 <= p < |d| && d[p].0 == k;
      PutOld(d, p, v);
      assert forall i :: 0 <= i < |d| ==> r[i].0 == d[i].0;
    } else {
      PutNew(d, k, v);
      assert r[|d|].0 == k && forall i :: 0 <= i < |d| ==> r[i] == d[i];
    }
  }

  /** An assignment brings in no pair but the assigned one. */
  lemma {:induction false} PutPairs<K, V>(d: Dict<K, V>, k: K, v: V)
    ensures forall p :: p in Put(d, k, v) ==> p in d || p == (k, v)
  {
    if d != [] && d[0].0 != k {
      PutPairs(d[1..], k, v);
    }
  }

  lemma {:induction false} FromPairsPairs<K, V>(ps: seq<(K, V)>)
    ensures forall p :: p in FromPairs(ps) ==> p in ps
  {
    if ps != [] {
      var n := |ps| - 1;
      FromPairsPairs(ps[..n]);
      PutPairs(FromPairs(ps[..n]), ps[n].0, ps[n].1);
    }
  }

  /** Storing pairs keeps every key once; nothing is lost exactly when the keys are distinct. */
  lemma {:induction false} FromPairsShape<K, V>(ps: seq<(K, V)>)
    ensures DistinctKeys(FromPairs(ps))
    ensures forall q :: HasKey(FromPairs(ps), q) <==> HasKey(ps, q)
    ensures |FromPairs(ps)| <= |ps|
    ensures |FromPairs(ps)| == |ps| <==> DistinctKeys(ps)
    ensures DistinctKeys(ps) ==> FromPairs(ps) == ps
  {
    if ps != [] {
      var n := |ps| - 1;
      assert ps == ps[..n] + [ps[n]];
      FromPairsShape(ps[..n]);
      FromPairsSnoc(ps[..n], ps[n]);
    }
  }

  lemma FromPairsSnoc<K, V>(qs: seq<(K, V)>, p: (K, V))
    requires DistinctKeys(FromPairs(qs)) && forall q :: HasKey(FromPairs(qs), q) <==> HasKey(qs, q)
    ensures DistinctKeys(FromPairs(qs + [p]))
    ensures forall q :: HasKey(FromPairs(qs + [p]), q) <==> HasKey(qs + [p], q)
    ensures |FromPairs(qs + [p])| == |FromPairs(qs)| + if HasKey(qs, p.0) then 0 else 1
    ensures DistinctKeys(qs + [p]) <==> DistinctKeys(qs) && !HasKey(qs, p.0)
    ensures !HasKey(qs, p.0) ==> FromPairs(qs + [p]) == FromPairs(qs) + [p]
  {
    assert (qs + [p])[..|qs|] == qs;
    HasKeySnoc(qs, p);
    PutShape(FromPairs(qs), p.0, p.1);
    if !HasKey(qs, p.0) {
      PutNew(FromPairs(qs), p.0, p.1);
    }
  }

  lemma HasKeySnoc<K, V>(d: seq<(K, V)>, p: (K, V))
    ensures forall q :: HasKey(d + [p], q) <==> HasKey(d, q) || q == p.0
    ensures DistinctKeys(d + [p]) <==> DistinctKeys(d) && !HasKey(d, p.0)
  {
    var e := d + [p];
    assert e[|d|] == p && forall i :: 0 <= i < |d| ==> e[i] == d[i];
  }

  /** With distinct keys a lookup finds the value stored at the key's place. */
  lemma {:induction false} FindAt<K, V>(d: Dict<K, V>, i: nat)
    requires i < |d| && DistinctKeys(d)
    ensures Find(d, d[i].0) == Some(d[i].1)
  {
    if i > 0 {
      FindAt(d[1..], i - 1);
    }
  }
}
