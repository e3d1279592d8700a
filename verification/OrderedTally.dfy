/** Running totals per key in insertion order: a JavaScript `Map<K, number>`, or a Rust `HashMap`
    read in some fixed iteration order. */
module OrderedTally {

  type Tally<K> = seq<(K, int)>

  predicate Distinct<K(==)>(t: Tally<K>) {
    forall i, j :: 0 <= i < j < |t| ==> t[i].0 != t[j].0
  }

  function Total<K>(t: Tally<K>): int {
    if t == [] then 0 else t[0].1 + Total(t[1..])
  }

  function Get<K(==)>(t: Tally<K>, k: K): int {
    if t == [] then 0 else if t[0].0 == k then t[0].1 else Get(t[1..], k)
  }

  predicate Has<K(==)>(t: Tally<K>, k: K) {
    exists i :: 0 <= i < |t| && t[i].0 == k
  }

  /** `v` more under the key `k`, which starts from zero at the end of the list when it is new. */
  function Add<K(==)>(t: Tally<K>, k: K, v: int): (r: Tally<K>)
    ensures Total(r) == Total(t) + v
    ensures |t| <= |r| <= |t| + 1 && forall i :: 0 <= i < |t| ==> r[i].0 == t[i].0
    ensures |r| == |t| <==> Has(t, k)
    ensures |r| == |t| + 1 ==> r[|t|] == (k, v)
  {
    if t == [] then [(k, v)]
    else if t[0].0 == k then [(k, t[0].1 + v)] + t[1..]
    else
      assert Has(t, k) <==> Has(t[1..], k) by { TailHas(t, k); }
      [t[0]] + Add(t[1..], k, v)
  }

  lemma {:induction false} TailHas<K>(t: Tally<K>, k: K)
    requires t != [] && t[0].0 != k
    ensures Has(t, k) <==> Has(t[1..], k)
  {
  }

  lemma {:induction false} AddKeepsDistinct<K>(t: Tally<K>, k: K, v: int)
    requires Distinct(t)
    ensures Distinct(Add(t, k, v))
  {
    var r := Add(t, k, v);
    forall i, j | 0 <= i < j < |r|
      ensures r[i].0 != r[j].0
    {
      assert r[i].0 == t[i].0;
      assert j < |t| ==> r[j].0 == t[j].0;
    }
  }

  lemma {:induction false} AddAt<K>(t: Tally<K>, k: K, v: int, other: K)
    ensures Get(Add(t, k, v), other) == Get(t, other) + (if other == k then v else 0)
  {
    if t != [] && t[0].0 != k {
      AddAt(t[1..], k, v, other);
    }
  }

  lemma {:induction false} AddHas<K>(t: Tally<K>, k: K, v: int, other: K)
    ensures Has(Add(t, k, v), other) <==> Has(t, other) || other == k
  {
  }

  /** In a tally with distinct keys, the entry under a key is the value looked up. */
  lemma {:induction false} GetEntry<K>(t: Tally<K>, i: nat)
    requires Distinct(t) && i < |t|
    ensures Get(t, t[i].0) == t[i].1
  {
    if i > 0 {
      assert t[0].0 != t[i].0;
      GetEntry(t[1..], i - 1);
    }
  }

  lemma {:induction false} GetAbsent<K>(t: Tally<K>, k: K)
    requires !Has(t, k)
    ensures Get(t, k) == 0
  {
    if t != [] {
      assert t[0].0 != k;
      TailHas(t, k);
      GetAbsent(t[1..], k);
    }
  }

  lemma {:induction false} TotalOfConcat<K>(a: Tally<K>, b: Tally<K>)
    ensures Total(a + b) == Total(a) + Total(b)
  {
    if a == [] {
      assert a + b == b;
    } else {
      assert (a + b)[1..] == a[1..] + b;
      TotalOfConcat(a[1..], b);
    }
  }

  lemma {:induction false} TotalOfPrefix<K>(t: Tally<K>, i: nat)
    requires i < |t|
    ensures Total(t[..i + 1]) == Total(t[..i]) + t[i].1
  {
    assert t[..i + 1] == t[..i] + [t[i]];
    TotalOfConcat(t[..i], [t[i]]);
  }

  // ----- the stable sort by falling value

  predicate Descending<K>(t: Tally<K>) {
    forall i, j :: 0 <= i < j < |t| ==> t[i].1 >= t[j].1
  }

  function InsertDescending<K>(t: Tally<K>, x: (K, int)): (r: Tally<K>)
    ensures |r| == |t| + 1 && multiset(r) == multiset(t) + multiset{x}
    ensures Total(r) == Total(t) + x.1
  {
    if t == [] then [x]
    else if x.1 > t[0].1 then [x] + t
    else
      assert t == [t[0]] + t[1..];
      [t[0]] + InsertDescending(t[1..], x)
  }

  lemma {:induction false} InsertKeepsDescending<K>(t: Tally<K>, x: (K, int))
    requires Descending(t)
    ensures Descending(InsertDescending(t, x))
  {
    if t != [] && x.1 <= t[0].1 {
      var rest := InsertDescending(t[1..], x);
      InsertKeepsDescending(t[1..], x);
      forall j | 0 <= j < |rest|
        ensures rest[j].1 <= t[0].1
      {
        assert rest[j] in multiset(rest);
        assert rest[j] in multiset(t[1..]) || rest[j] == x;
        assert rest[j] in t[1..] || rest[j] == x;
      }
    }
  }

  function SortDescending<K>(t: Tally<K>): (r: Tally<K>)
    ensures |r| == |t| && multiset(r) == multiset(t)
    ensures Total(r) == Total(t)
    ensures Descending(r)
  {
    if t == [] then []
    else
      var n := |t| - 1;
      assert t == t[..n] + [t[n]];
      TotalOfConcat(t[..n], [t[n]]);
      InsertKeepsDescending(SortDescending(t[..n]), t[n]);
      InsertDescending(SortDescending(t[..n]), t[n])
  }

  lemma {:induction false} SameMembers<K>(a: Tally<K>, b: Tally<K>, e: (K, int))
    requires multiset(a) == multiset(b)
    ensures e in a <==> e in b
  {
    assert e in a <==> e in multiset(a);
    assert e in b <==> e in multiset(b);
  }

  lemma {:induction false} InsertKeepsDistinct<K>(t: Tally<K>, x: (K, int))
    requires Distinct(t) && !Has(t, x.0)
    ensures Distinct(InsertDescending(t, x))
    ensures forall k :: Has(InsertDescending(t, x), k) <==> Has(t, k) || k == x.0
  {
    var r := InsertDescending(t, x);
    if t == [] || x.1 > t[0].1 {
      assert forall i :: 0 <= i < |t| ==> r[i + 1] == t[i];
      forall k
        ensures Has(r, k) <==> Has(t, k) || k == x.0
      {
        assert r[0] == x;
        if i :| 0 <= i < |t| && t[i].0 == k { assert r[i + 1].0 == k; }
        if i :| 0 <= i < |r| && r[i].0 == k { assert i > 0 ==> t[i - 1].0 == k; }
      }
    } else {
      assert t[0].0 != x.0;
      TailHas(t, x.0);
      InsertKeepsDistinct(t[1..], x);
      var rest := InsertDescending(t[1..], x);
      assert r == [t[0]] + rest;
      assert !Has(t[1..], t[0].0);
      assert !Has(rest, t[0].0);
      forall k
        ensures Has(r, k) <==> Has(t, k) || k == x.0
      {
        assert t[0].0 == r[0].0;
        if k != t[0].0 {
          TailHas(t, k);
          TailHas(r, k);
        }
      }
      assert forall j :: 0 < j < |r| ==> r[j] == rest[j - 1];
    }
  }

  lemma {:induction false} SortKeepsDistinct<K>(t: Tally<K>)
    requires Distinct(t)
    ensures Distinct(SortDescending(t))
    ensures forall k :: Has(SortDescending(t), k) <==> Has(t, k)
  {
    if t != [] {
      var n := |t| - 1;
      SortKeepsDistinct(t[..n]);
      assert !Has(t[..n], t[n].0);
      InsertKeepsDistinct(SortDescending(t[..n]), t[n]);
      forall k
        ensures Has(t, k) <==> Has(t[..n], k) || k == t[n].0
      {
        if i :| 0 <= i < |t| && t[i].0 == k { assert i < n ==> t[..n][i].0 == k; }
        if i :| 0 <= i < n && t[..n][i].0 == k { assert t[i].0 == k; }
      }
    }
  }

  /** Sorting reorders entries and changes none. */
  lemma {:induction false} SortedEntry<K>(t: Tally<K>, k: nat)
    requires Distinct(t) && k < |t|
    ensures SortDescending(t)[k] in t
    ensures Has(t, SortDescending(t)[k].0) && Get(t, SortDescending(t)[k].0) == SortDescending(t)[k].1
  {
    var e := SortDescending(t)[k];
    SameMembers(SortDescending(t), t, e);
    var i :| 0 <= i < |t| && t[i] == e;
    GetEntry(t, i);
  }

  lemma {:induction false} SortKeepsEntry<K>(a: Tally<K>, x: (K, int), e: (K, int))
    requires e in a
    ensures e in SortDescending(a + [x])
  {
    assert e in a + [x];
    SameMembers(SortDescending(a + [x]), a + [x], e);
  }
}
