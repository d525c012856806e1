/** Sums over the values of a map. */
module Sums {

  ghost function Sum<K(!new)>(m: map<K, nat>): nat {
    if m.Keys == {} then 0 else
      var k := Pick(m);
      m[k] + Sum(m - {k})
  }

  ghost function Pick<K(!new)>(m: map<K, nat>): (k: K)
    requires m.Keys != {}
    ensures k in m
  {
    var k :| k in m.Keys;
    k
  }

  /** Any key may be counted first. */
  lemma {:induction false} SumMinus<K(!new)>(m: map<K, nat>, k: K)
    requires k in m
    ensures Sum(m) == m[k] + Sum(m - {k})
    decreases |m|
  {
    var p := Pick(m);
    if p != k {
      SumMinus(m - {p}, k);
      SumMinus(m - {k}, p);
      assert m - {p} - {k} == m - {k} - {p};
    }
  }

  lemma SumPlus<K(!new)>(m: map<K, nat>, k: K, v: nat)
    ensures Sum(m[k := v]) == v + Sum(m - {k})
    ensures k !in m ==> Sum(m[k := v]) == v + Sum(m)
    ensures k in m ==> Sum(m[k := v]) + m[k] == v + Sum(m)
  {
    SumMinus(m[k := v], k);
    assert m[k := v] - {k} == m - {k};
    if k in m {
      SumMinus(m, k);
    } else {
      assert m - {k} == m;
    }
  }

  lemma {:induction false} SumUnion<K(!new)>(a: map<K, nat>, b: map<K, nat>)
    requires forall k :: k in a ==> k !in b
    ensures Sum(a + b) == Sum(a) + Sum(b)
    decreases |a|
  {
    if a.Keys == {} {
      assert a + b == b;
    } else {
      var k := Pick(a);
      SumUnion(a - {k}, b);
      UnionMinus(a, b, k);
      SumMinus(a + b, k);
    }
  }

  lemma UnionMinus<K, V>(a: map<K, V>, b: map<K, V>, k: K)
    requires k in a && forall k' :: k' in a ==> k' !in b
    ensures (a + b) - {k} == (a - {k}) + b
    ensures k in a + b && (a + b)[k] == a[k]
  {
  }

  /** The part of a map under some of its keys sums to no more than the whole. */
  lemma SumPart<K(!new)>(part: map<K, nat>, whole: map<K, nat>)
    requires part.Keys <= whole.Keys && forall k :: k in part ==> part[k] == whole[k]
    ensures Sum(part) <= Sum(whole)
  {
    var rest := whole - part.Keys;
    assert whole == part + rest;
    SumUnion(part, rest);
  }
}
