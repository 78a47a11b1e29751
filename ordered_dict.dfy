/**
 * Python dictionaries as the fee code uses them: insertion-ordered
 * sequences of (key, value) pairs in which assigning to a present key
 * replaces its value in place, and `dict(sorted(d.items(), key=value))`.
 */
module OrderedDict {
  import opened Wrappers

  ghost predicate DistinctKeys<K, V>(d: seq<(K, V)>) {
    forall i, j :: 0 <= i < j < |d| ==> d[i].0 != d[j].0
  }

  /** `d.get(k)`: the value of the first pair with key k. */
  function Lookup<K(==), V>(d: seq<(K, V)>, k: K): Option<V> {
    if d == [] then None
    else if d[0].0 == k then Some(d[0].1)
    else Lookup(d[1..], k)
  }

  /** `d[k] = v`: replaces the value in place when k is present, else appends. */
  function Put<K(==,!new), V>(d: seq<(K, V)>, k: K, v: V): (r: seq<(K, V)>)
    ensures Lookup(r, k) == Some(v)
    ensures forall k' :: k' != k ==> Lookup(r, k') == Lookup(d, k')
    ensures DistinctKeys(d) ==> DistinctKeys(r)
    ensures Lookup(d, k).Some? ==> |r| == |d| && forall i :: 0 <= i < |d| ==> r[i].0 == d[i].0
    ensures Lookup(d, k).None? ==> r == d + [(k, v)]
  {
    if d == [] then [(k, v)]
    else if d[0].0 == k then [(k, v)] + d[1..]
    else
      var rest := Put(d[1..], k, v);
      LookupCons(d[0], rest);
      PutKeepsDistinct(d, k, v, rest);
      assert forall i :: 0 < i < |d| ==> d[i] == d[1..][i - 1];
      [d[0]] + rest
  }

  /** The step of Put that keeps keys distinct: the head's key is not among the tail's new keys. */
  lemma PutKeepsDistinct<K, V>(d: seq<(K, V)>, k: K, v: V, rest: seq<(K, V)>)
    requires d != [] && d[0].0 != k
    requires DistinctKeys(d[1..]) ==> DistinctKeys(rest)
    requires Lookup(d[1..], k).Some? ==> |rest| == |d[1..]| && forall i :: 0 <= i < |d[1..]| ==> rest[i].0 == d[1..][i].0
    requires Lookup(d[1..], k).None? ==> rest == d[1..] + [(k, v)]
    ensures DistinctKeys(d) ==> DistinctKeys([d[0]] + rest)
  {
    if DistinctKeys(d) {
      assert DistinctKeys(d[1..]) by {
        forall i, j | 0 <= i < j < |d[1..]| ensures d[1..][i].0 != d[1..][j].0 {
          assert d[1..][i] == d[i + 1] && d[1..][j] == d[j + 1];
        }
      }
      assert forall j :: 0 <= j < |rest| ==> rest[j].0 != d[0].0 by {
        forall j | 0 <= j < |rest| ensures rest[j].0 != d[0].0 {
          if j < |d[1..]| {
            assert rest[j].0 == d[j + 1].0;
          }
        }
      }
      var r := [d[0]] + rest;
      forall i, j | 0 <= i < j < |r| ensures r[i].0 != r[j].0 {
        assert r[j] == rest[j - 1];
        if i > 0 {
          assert r[i] == rest[i - 1];
        }
      }
    }
  }

  lemma LookupCons<K, V>(x: (K, V), s: seq<(K, V)>)
    ensures forall k :: Lookup([x] + s, k) == if x.0 == k then Some(x.1) else Lookup(s, k)
  {
    assert ([x] + s)[1..] == s;
  }

  /** In a dictionary with distinct keys, a lookup finds exactly the stored pairs. */
  lemma {:induction false} LookupMember<K, V>(d: seq<(K, V)>, k: K, v: V)
    requires DistinctKeys(d)
    ensures Lookup(d, k) == Some(v) <==> (k, v) in d
  {
    if d != [] {
      assert DistinctKeys(d[1..]) by {
        forall i, j | 0 <= i < j < |d[1..]| ensures d[1..][i].0 != d[1..][j].0 {
          assert d[1..][i] == d[i + 1] && d[1..][j] == d[j + 1];
        }
      }
      LookupMember(d[1..], k, v);
      if d[0].0 == k {
        assert (k, v) !in d[1..];
      }
      assert (k, v) in d <==> d[0] == (k, v) || (k, v) in d[1..];
    }
  }

  lemma {:induction false} LookupHasKey<K, V>(d: seq<(K, V)>, k: K)
    ensures Lookup(d, k).Some? <==> exists i :: 0 <= i < |d| && d[i].0 == k
  {
    if d != [] {
      LookupHasKey(d[1..], k);
      if d[0].0 != k {
        assert forall i :: 0 < i < |d| ==> d[i] == d[1..][i - 1];
      }
    }
  }

  // ---- dict(sorted(d.items(), key=lambda item: item[1])) ---------------

  predicate SortedByValue<K>(d: seq<(K, int)>) {
    forall i, j :: 0 <= i < j < |d| ==> d[i].1 <= d[j].1
  }

  /** Places x before the first pair whose value is not smaller. */
  function Insert<K>(x: (K, int), s: seq<(K, int)>): seq<(K, int)> {
    if s == [] then [x]
    else if x.1 <= s[0].1 then [x] + s
    else [s[0]] + Insert(x, s[1..])
  }

  lemma {:induction false} InsertMultiset<K>(x: (K, int), s: seq<(K, int)>)
    ensures multiset(Insert(x, s)) == multiset(s) + multiset{x}
  {
    if s != [] && x.1 > s[0].1 {
      InsertMultiset(x, s[1..]);
      assert s == [s[0]] + s[1..];
    }
  }

  lemma {:induction false} InsertSorted<K>(x: (K, int), s: seq<(K, int)>)
    requires SortedByValue(s)
    ensures SortedByValue(Insert(x, s))
  {
    if s != [] && x.1 > s[0].1 {
      var rest := Insert(x, s[1..]);
      InsertSorted(x, s[1..]);
      InsertLowerBound(x, s[1..], s[0].1);
      var r := [s[0]] + rest;
      forall i, j | 0 <= i < j < |r| ensures r[i].1 <= r[j].1 {
        if i == 0 { assert r[j] == rest[j - 1]; }
        else { assert r[i] == rest[i - 1] && r[j] == rest[j - 1]; }
      }
    }
  }

  /** Inserting a pair no smaller than b among pairs no smaller than b keeps every pair no smaller than b. */
  lemma {:induction false} InsertLowerBound<K>(x: (K, int), s: seq<(K, int)>, b: int)
    requires forall k :: 0 <= k < |s| ==> b <= s[k].1
    requires b <= x.1
    ensures forall k :: 0 <= k < |Insert(x, s)| ==> b <= Insert(x, s)[k].1
  {
    if s != [] && x.1 > s[0].1 {
      InsertLowerBound(x, s[1..], b);
      assert forall k :: 0 < k < |Insert(x, s)| ==> Insert(x, s)[k] == Insert(x, s[1..])[k - 1];
    }
  }

  /** Insertion sort by value (a stable sort, as Python's). */
  function SortByValue<K>(s: seq<(K, int)>): seq<(K, int)> {
    if s == [] then [] else Insert(s[0], SortByValue(s[1..]))
  }

  lemma {:induction false} SortByValueSorted<K>(s: seq<(K, int)>)
    ensures SortedByValue(SortByValue(s))
    ensures multiset(SortByValue(s)) == multiset(s)
  {
    if s != [] {
      SortByValueSorted(s[1..]);
      InsertSorted(s[0], SortByValue(s[1..]));
      InsertMultiset(s[0], SortByValue(s[1..]));
      assert s == [s[0]] + s[1..];
    }
  }

  /** Sorting a dictionary keeps its keys distinct and every lookup. */
  lemma SortKeepsLookups<K>(s: seq<(K, int)>)
    requires DistinctKeys(s)
    ensures DistinctKeys(SortByValue(s))
    ensures forall k :: Lookup(SortByValue(s), k) == Lookup(s, k)
    ensures |SortByValue(s)| == |s|
  {
    var r := SortByValue(s);
    SortByValueSorted(s);
    assert |r| == |multiset(r)| == |multiset(s)| == |s|;
    forall i, j | 0 <= i < j < |r| ensures r[i].0 != r[j].0 {
      PermutedKeysDiffer(s, r, i, j);
    }
    forall k ensures Lookup(r, k) == Lookup(s, k) {
      LookupSame(s, r, k);
    }
  }

  lemma PermutedKeysDiffer<K>(s: seq<(K, int)>, r: seq<(K, int)>, i: nat, j: nat)
    requires DistinctKeys(s) && multiset(r) == multiset(s)
    requires i < j < |r|
    ensures r[i].0 != r[j].0
  {
    if r[i].0 == r[j].0 {
      KeysCollide(s, r, i, j);
      assert r[i] in multiset(s);
      var a :| 0 <= a < |s| && s[a] == r[i];
      OccursOnce(s, a);
    }
  }

  lemma KeysCollide<K>(s: seq<(K, int)>, r: seq<(K, int)>, i: nat, j: nat)
    requires DistinctKeys(s) && multiset(r) == multiset(s)
    requires i < j < |r| && r[i].0 == r[j].0
    ensures r[i] == r[j] && multiset(r)[r[i]] >= 2
  {
    assert r[i] in multiset(s) by { assert r[i] in multiset(r); }
    assert r[j] in multiset(s) by { assert r[j] in multiset(r); }
    var a :| 0 <= a < |s| && s[a] == r[i];
    var b :| 0 <= b < |s| && s[b] == r[j];
    assert a == b;
    var p := r[i];
    assert r == r[..j] + [r[j]] + r[j + 1..];
    assert r[i] in r[..j];
    assert multiset(r[..j])[p] >= 1;
  }

  /** A pair at position a of a distinct-keyed sequence occurs there only. */
  lemma OccursOnce<K, V>(s: seq<(K, V)>, a: nat)
    requires DistinctKeys(s) && a < |s|
    ensures multiset(s)[s[a]] == 1
  {
    var p := s[a];
    assert s == s[..a] + [p] + s[a + 1..];
    assert p !in s[..a];
    assert p !in s[a + 1..];
    assert multiset(s) == multiset(s[..a]) + multiset{p} + multiset(s[a + 1..]);
  }

  lemma LookupSame<K>(s: seq<(K, int)>, r: seq<(K, int)>, k: K)
    requires DistinctKeys(s) && DistinctKeys(r) && multiset(r) == multiset(s)
    ensures Lookup(r, k) == Lookup(s, k)
  {
    match Lookup(s, k)
    case Some(v) =>
      LookupMember(s, k, v);
      assert (k, v) in multiset(r);
      LookupMember(r, k, v);
    case None =>
      match Lookup(r, k)
      case Some(v) =>
        LookupMember(r, k, v);
        assert (k, v) in multiset(s);
        LookupMember(s, k, v);
      case None =>
  }
}
