// Python's `sorted(..., reverse=True)`: descending by a key, equal keys keep their order.
module StableSort {

  function Insert<T>(x: T, s: seq<T>, key: T -> real): seq<T> {
    if s == [] || key(x) >= key(s[0]) then [x] + s else [s[0]] + Insert(x, s[1..], key)
  }

  function SortDesc<T>(s: seq<T>, key: T -> real): seq<T> {
    if s == [] then [] else Insert(s[0], SortDesc(s[1..], key), key)
  }

  ghost predicate Descending<T>(s: seq<T>, key: T -> real) {
    s == [] || ((forall x :: x in s[1..] ==> key(x) <= key(s[0])) && Descending(s[1..], key))
  }

  lemma {:induction false} DescendingPairs<T>(s: seq<T>, key: T -> real, i: nat, j: nat)
    requires Descending(s, key) && i < j < |s|
    ensures key(s[j]) <= key(s[i])
  {
    if i == 0 {
      assert s[1..][j - 1] == s[j];
    } else {
      DescendingPairs(s[1..], key, i - 1, j - 1);
    }
  }

  /** The elements of one key, in order. */
  ghost function OfKey<T>(s: seq<T>, key: T -> real, k: real): seq<T> {
    if s == [] then [] else (if key(s[0]) == k then [s[0]] else []) + OfKey(s[1..], key, k)
  }

  lemma {:induction false} InsertMembers<T>(x: T, s: seq<T>, key: T -> real)
    ensures multiset(Insert(x, s, key)) == multiset{x} + multiset(s)
    ensures |Insert(x, s, key)| == |s| + 1
    ensures forall y :: y in Insert(x, s, key) <==> y == x || y in s
  {
    if s != [] && key(x) < key(s[0]) {
      InsertMembers(x, s[1..], key);
      assert s == [s[0]] + s[1..];
    }
  }

  lemma {:induction false} InsertDescends<T>(x: T, s: seq<T>, key: T -> real)
    requires Descending(s, key)
    ensures Descending(Insert(x, s, key), key)
  {
    var r := Insert(x, s, key);
    if s == [] || key(x) >= key(s[0]) {
      assert r[1..] == s;
      forall y | y in s ensures key(y) <= key(x) {
        assert y == s[0] || y in s[1..];
      }
    } else {
      InsertDescends(x, s[1..], key);
      InsertMembers(x, s[1..], key);
      assert r[1..] == Insert(x, s[1..], key);
    }
  }

  /** The result is a descending permutation. */
  lemma {:induction false} SortProperties<T>(s: seq<T>, key: T -> real)
    ensures Descending(SortDesc(s, key), key)
    ensures multiset(SortDesc(s, key)) == multiset(s)
    ensures |SortDesc(s, key)| == |s|
  {
    if s != [] {
      SortProperties(s[1..], key);
      InsertDescends(s[0], SortDesc(s[1..], key), key);
      InsertMembers(s[0], SortDesc(s[1..], key), key);
      assert s == [s[0]] + s[1..];
    }
  }

  lemma {:induction false} InsertStable<T>(x: T, s: seq<T>, key: T -> real, k: real)
    ensures OfKey(Insert(x, s, key), key, k) == (if key(x) == k then [x] else []) + OfKey(s, key, k)
  {
    var r := Insert(x, s, key);
    if s == [] || key(x) >= key(s[0]) {
      assert r[1..] == s;
    } else {
      InsertStable(x, s[1..], key, k);
      assert r[1..] == Insert(x, s[1..], key);
      if key(x) == k {
        assert OfKey(r, key, k) == [] + OfKey(r[1..], key, k) == [x] + OfKey(s[1..], key, k);
        assert OfKey(s, key, k) == OfKey(s[1..], key, k);
      } else {
        assert OfKey(r[1..], key, k) == OfKey(s[1..], key, k);
      }
    }
  }

  /** Elements of equal key keep their relative order. */
  lemma {:induction false} SortStable<T>(s: seq<T>, key: T -> real, k: real)
    ensures OfKey(SortDesc(s, key), key, k) == OfKey(s, key, k)
  {
    if s != [] {
      SortStable(s[1..], key, k);
      InsertStable(s[0], SortDesc(s[1..], key), key, k);
    }
  }

  /** Reading from the front, `x` is met before `y`. */
  ghost predicate Ahead<T>(s: seq<T>, x: T, y: T) {
    s != [] && (s[0] == x || (s[0] != y && Ahead(s[1..], x, y)))
  }

  lemma {:induction false} AheadOfKey<T>(s: seq<T>, key: T -> real, x: T, y: T)
    requires key(x) == key(y)
    ensures Ahead(OfKey(s, key, key(x)), x, y) <==> Ahead(s, x, y)
  {
    if s != [] {
      AheadOfKey(s[1..], key, x, y);
      if key(s[0]) == key(x) {
        assert OfKey(s, key, key(x))[1..] == OfKey(s[1..], key, key(x));
      } else {
        assert OfKey(s, key, key(x)) == OfKey(s[1..], key, key(x));
      }
    }
  }

  /** Of two elements of equal key the one met first stays first. */
  lemma SortKeepsAhead<T>(s: seq<T>, key: T -> real, x: T, y: T)
    requires key(x) == key(y)
    ensures Ahead(SortDesc(s, key), x, y) <==> Ahead(s, x, y)
  {
    AheadOfKey(s, key, x, y);
    AheadOfKey(SortDesc(s, key), key, x, y);
    SortStable(s, key, key(x));
  }

  /** Index of the earliest element of greatest key: the simple scan the sort must agree with. */
  ghost predicate EarliestBest<T>(s: seq<T>, key: T -> real, i: nat) {
    i < |s|
    && (forall j :: 0 <= j < |s| ==> key(s[j]) <= key(s[i]))
    && (forall j :: 0 <= j < i ==> key(s[j]) < key(s[i]))
  }

  lemma {:induction false} HeadIsEarliestBest<T>(s: seq<T>, key: T -> real) returns (i: nat)
    requires s != []
    ensures EarliestBest(s, key, i) && SortDesc(s, key) != [] && SortDesc(s, key)[0] == s[i]
  {
    var rest := SortDesc(s[1..], key);
    if |s| == 1 {
      i := 0;
    } else {
      var j := HeadIsEarliestBest(s[1..], key);
      i := if key(s[0]) >= key(s[1..][j]) then 0 else j + 1;
    }
  }

  lemma WithoutOne<T>(s: seq<T>, i: nat)
    requires i < |s|
    ensures multiset(s[..i] + s[i + 1..]) == multiset(s) - multiset{s[i]}
  {
    assert s == s[..i] + ([s[i]] + s[i + 1..]);
  }

  lemma TailIsOthers<T>(s: seq<T>, r: seq<T>, i: nat)
    requires i < |s| && multiset(r) == multiset(s) && r != [] && r[0] == s[i]
    ensures multiset(r[1..]) == multiset(s[..i] + s[i + 1..])
  {
    WithoutOne(s, i);
    assert r == [r[0]] + r[1..];
  }

  /** Behind the head come the other elements, none of greater key than the first of them. */
  lemma BehindHead<T>(s: seq<T>, key: T -> real, i: nat)
    requires |s| >= 2 && i < |s| && SortDesc(s, key) != [] && SortDesc(s, key)[0] == s[i]
    ensures |SortDesc(s, key)| == |s| && SortDesc(s, key)[1] in s[..i] + s[i + 1..]
    ensures forall x :: x in s[..i] + s[i + 1..] ==> key(x) <= key(SortDesc(s, key)[1])
  {
    SortProperties(s, key);
    var r, others := SortDesc(s, key), s[..i] + s[i + 1..];
    TailIsOthers(s, r, i);
    assert r[1..][0] == r[1] && r[1] in multiset(r[1..]);
    forall x | x in others ensures key(x) <= key(r[1]) {
      assert x in multiset(r[1..]);
      var p :| 0 <= p < |r[1..]| && r[1..][p] == x;
      if p > 0 {
        DescendingPairs(r, key, 1, p + 1);
      }
    }
  }

  /** The second element: the greatest of the others. */
  lemma RunnerUp<T>(s: seq<T>, key: T -> real, i: nat) returns (j: nat)
    requires |s| >= 2 && i < |s| && SortDesc(s, key) != [] && SortDesc(s, key)[0] == s[i]
    ensures |SortDesc(s, key)| == |s|
    ensures j < |s| && j != i && SortDesc(s, key)[1] == s[j]
    ensures forall k :: 0 <= k < |s| && k != i ==> key(s[k]) <= key(s[j])
  {
    BehindHead(s, key, i);
    var others := s[..i] + s[i + 1..];
    var second := SortDesc(s, key)[1];
    var m :| 0 <= m < |others| && others[m] == second;
    j := if m < i then m else m + 1;
    forall k | 0 <= k < |s| && k != i ensures key(s[k]) <= key(second) {
      assert s[k] == others[if k < i then k else k - 1];
    }
  }
}
