/** JavaScript objects used as dictionaries, modelled as association lists whose
    order is the object's property iteration order (its insertion order). */
module Assoc {
  import opened Wrappers

  type AList<K, V> = seq<(K, V)>

  function Keys<K, V>(m: AList<K, V>): (ks: seq<K>)
    ensures |ks| == |m|
    ensures forall i :: 0 <= i < |m| ==> ks[i] == m[i].0
  {
    if m == [] then [] else [m[0].0] + Keys(m[1..])
  }

  /** A well-formed object: no property name occurs twice. */
  ghost predicate Unique<K, V>(m: AList<K, V>) {
    forall i, j :: 0 <= i < j < |m| ==> m[i].0 != m[j].0
  }

  /** `m[k]`: the value of property `k`, `None` for `undefined`. */
  function Get<K(==), V>(m: AList<K, V>, k: K): (r: Option<V>)
    ensures r.Some? <==> k in Keys(m)

  {
    if m == [] then None
    else if m[0].0 == k then Some(m[0].1)
    else Get(m[1..], k)
  }

  /** A value found under `k` is paired with `k` in the list. */
  lemma {:induction false} GetIn<K, V>(m: AList<K, V>, k: K)
    ensures Get(m, k).Some? ==> (k, Get(m, k).value) in m
  {
    if m != [] && m[0].0 != k {
      GetIn(m[1..], k);
    }
  }

  /** `m[k] = v`: an existing property keeps its position, a new one is appended. */
  function Put<K(==), V>(m: AList<K, V>, k: K, v: V): (r: AList<K, V>)
    ensures Get(r, k) == Some(v)
    ensures Keys(r) == if k in Keys(m) then Keys(m) else Keys(m) + [k]
  {
    if m == [] then [(k, v)]
    else
      KeysCons(m[0], m[1..]);
      if m[0].0 == k then
        KeysCons((k, v), m[1..]);
        [(k, v)] + m[1..]
      else
        var rest := Put(m[1..], k, v);
        KeysCons(m[0], rest);
        [m[0]] + rest
  }

  lemma KeysCons<K, V>(e: (K, V), m: AList<K, V>)
    ensures Keys([e] + m) == [e.0] + Keys(m)
  {
    assert ([e] + m)[1..] == m;
  }

  lemma KeyIn<K, V>(m: AList<K, V>, k: K)
    ensures k in Keys(m) <==> exists i :: 0 <= i < |m| && m[i].0 == k
  {
    if k in Keys(m) {
      var i :| 0 <= i < |Keys(m)| && Keys(m)[i] == k;
      assert m[i].0 == k;
    }
  }

  /** No element occurs twice. */
  predicate Distinct<T(==)>(s: seq<T>) {
    forall i, j :: 0 <= i < j < |s| ==> s[i] != s[j]
  }

  lemma DistinctSnoc<T>(s: seq<T>, x: T)
    requires Distinct(s) && x !in s
    ensures Distinct(s + [x])
  {
    forall i, j | 0 <= i < j < |s + [x]| ensures (s + [x])[i] != (s + [x])[j] {
      assert (s + [x])[i] == s[i];
      if j < |s| { assert (s + [x])[j] == s[j]; }
    }
  }

  lemma UniqueKeysDistinct<K, V>(a: AList<K, V>)
    ensures Unique(a) <==> Distinct(Keys(a))
  {
    if Unique(a) {
      forall i, j | 0 <= i < j < |Keys(a)| ensures Keys(a)[i] != Keys(a)[j] {
        assert a[i].0 != a[j].0;
      }
    }
    if Distinct(Keys(a)) {
      forall i, j | 0 <= i < j < |a| ensures a[i].0 != a[j].0 {
        assert Keys(a)[i] != Keys(a)[j];
      }
    }
  }

  lemma PutUnique<K, V>(m: AList<K, V>, k: K, v: V)
    requires Unique(m)
    ensures Unique(Put(m, k, v))
  {
    UniqueKeysDistinct(m);
    UniqueKeysDistinct(Put(m, k, v));
    if k !in Keys(m) {
      DistinctSnoc(Keys(m), k);
    }
  }

  /** The assignments `m[b[0].0] = b[0].1; m[b[1].0] = b[1].1; ...` in order;
      with `b` an object this is the spread `{...m, ...b}`. */
  function PutAll<K(==), V>(m: AList<K, V>, b: AList<K, V>): (r: AList<K, V>)
  {
    if b == [] then m
    else Put(PutAll(m, b[..|b| - 1]), b[|b| - 1].0, b[|b| - 1].1)
  }

  /** The value of the last occurrence of `k` in `b`. */
  function GetLast<K(==), V>(b: AList<K, V>, k: K): (r: Option<V>)
    ensures r.Some? <==> k in Keys(b)
  {
    if b == [] then None
    else if b[|b| - 1].0 == k then Some(b[|b| - 1].1)
    else
      KeysFront(b);
      GetLast(b[..|b| - 1], k)
  }

  /** `Array.from(new Set(s))`: first occurrences, in order. */
  function Dedup<T(==)>(s: seq<T>): (d: seq<T>)
    ensures forall i :: 0 <= i < |s| ==> s[i] in d
    ensures forall i :: 0 <= i < |d| ==> d[i] in s
    ensures Distinct(d)
  {
    if s == [] then []
    else
      var front := Dedup(s[..|s| - 1]);
      assert forall i :: 0 <= i < |s| - 1 ==> s[i] == s[..|s| - 1][i];
      if s[|s| - 1] in front then front else front + [s[|s| - 1]]
  }

  lemma {:induction false} GetPutOther<K, V>(m: AList<K, V>, k: K, v: V, j: K)
    requires j != k
    ensures Get(Put(m, k, v), j) == Get(m, j)
    decreases |m|
  {
    if m != [] && m[0].0 != k {
      GetPutOther(m[1..], k, v, j);
    }
  }

  /** Assigning one property leaves every other property as it was. */
  lemma GetPutOthers<K, V>(m: AList<K, V>, k: K, v: V)
    ensures forall j :: j != k ==> Get(Put(m, k, v), j) == Get(m, j)
  {
    forall j | j != k ensures Get(Put(m, k, v), j) == Get(m, j) {
      GetPutOther(m, k, v, j);
    }
  }

  /** The last assignment of a batch wins; keys outside the batch keep their value. */
  lemma {:induction false} GetPutAll<K, V>(m: AList<K, V>, b: AList<K, V>, k: K)
    ensures Get(PutAll(m, b), k) == if k in Keys(b) then GetLast(b, k) else Get(m, k)
    decreases |b|
  {
    if b != [] {
      var front := b[..|b| - 1];
      KeysFront(b);
      GetPutAll(m, front, k);
      if b[|b| - 1].0 != k {
        GetPutOther(PutAll(m, front), b[|b| - 1].0, b[|b| - 1].1, k);
      }
    }
  }

  lemma {:induction false} PutAllUnique<K, V>(m: AList<K, V>, b: AList<K, V>)
    requires Unique(m)
    ensures Unique(PutAll(m, b))
    decreases |b|
  {
    if b != [] {
      PutAllUnique(m, b[..|b| - 1]);
      PutUnique(PutAll(m, b[..|b| - 1]), b[|b| - 1].0, b[|b| - 1].1);
    }
  }

  /** In a well-formed object the last occurrence is the only one. */
  lemma {:induction false} GetLastUnique<K, V>(b: AList<K, V>, k: K)
    requires Unique(b)
    ensures GetLast(b, k) == Get(b, k)
    decreases |b|
  {
    if b != [] {
      var front := b[..|b| - 1];
      assert Unique(front);
      GetLastUnique(front, k);
      assert b == front + [b[|b| - 1]];
      GetAppend(front, b[|b| - 1]);
      if b[|b| - 1].0 == k {
        KeyIn(front, k);
      }
    }
  }

  lemma {:induction false} GetAppend<K, V>(m: AList<K, V>, e: (K, V))
    ensures forall k :: Get(m + [e], k) == if k in Keys(m) then Get(m, k) else if e.0 == k then Some(e.1) else None
    decreases |m|
  {
    if m != [] {
      assert (m + [e])[1..] == m[1..] + [e];
      assert Keys(m) == [m[0].0] + Keys(m[1..]);
      GetAppend(m[1..], e);
    }
  }

  /** `{...a, ...b}`: the keys are those of `a` followed by the new keys of `b`, and on a
      shared key the value of `b` wins. */
  lemma OverlayGet<K, V>(a: AList<K, V>, b: AList<K, V>, k: K)
    requires Unique(b)
    ensures Get(PutAll(a, b), k) == if k in Keys(b) then Get(b, k) else Get(a, k)
  {
    GetPutAll(a, b, k);
    GetLastUnique(b, k);
  }

  lemma {:induction false} DedupUnique<T>(s: seq<T>)
    requires Distinct(s)
    ensures Dedup(s) == s
    decreases |s|
  {
    if s != [] {
      DedupUnique(s[..|s| - 1]);
    }
  }

  /** The first occurrences of `s` come first in the deduplicated `s + t`. */
  lemma {:induction false} DedupPrefix<T>(s: seq<T>, t: seq<T>)
    ensures |Dedup(s)| <= |Dedup(s + t)| && Dedup(s + t)[..|Dedup(s)|] == Dedup(s)
    decreases |t|
  {
    if t == [] {
      assert s + t == s;
    } else {
      var t' := t[..|t| - 1];
      assert (s + t)[..|s + t| - 1] == s + t';
      DedupPrefix(s, t');
    }
  }

  lemma DedupSnoc<T>(s: seq<T>, x: T)
    ensures Dedup(s + [x]) == if x in Dedup(s) then Dedup(s) else Dedup(s) + [x]
  {
    assert (s + [x])[..|s + [x]| - 1] == s;
  }

  lemma {:induction false} KeysAppend<K, V>(m: AList<K, V>, e: (K, V))
    ensures Keys(m + [e]) == Keys(m) + [e.0]
    decreases |m|
  {
    if m != [] {
      assert (m + [e])[1..] == m[1..] + [e];
      KeysAppend(m[1..], e);
    }
  }

  lemma KeysFront<K, V>(b: AList<K, V>)
    requires b != []
    ensures Keys(b) == Keys(b[..|b| - 1]) + [b[|b| - 1].0]
  {
    var front := b[..|b| - 1];
    var f := Keys(front) + [b[|b| - 1].0];
    forall i | 0 <= i < |b| ensures f[i] == Keys(b)[i] {
      if i < |front| {
        assert f[i] == Keys(front)[i] == front[i].0;
      }
    }
  }

  lemma {:induction false} KeysPutAll<K, V>(a: AList<K, V>, b: AList<K, V>)
    requires Unique(a)
    ensures Keys(PutAll(a, b)) == Dedup(Keys(a) + Keys(b))
    decreases |b|
  {
    if b == [] {
      assert Keys(a) + Keys(b) == Keys(a);
      UniqueKeysDistinct(a);
      DedupUnique(Keys(a));
    } else {
      var front := b[..|b| - 1];
      var last := b[|b| - 1];
      var x := Keys(a) + Keys(front);
      KeysPutAll(a, front);
      KeysFront(b);
      assert Keys(a) + Keys(b) == x + [last.0];
      DedupSnoc(x, last.0);
    }
  }
}
