/** Sums over the entries of a finite map. */
module Sums {

  ghost function Sum<K>(m: map<K, int>): int
    decreases |m|
  {
    if m == map[] then 0 else var e :| e in m; m[e] + Sum(m - {e})
  }

  lemma {:induction false} SumPick<K>(m: map<K, int>, e: K)
    requires e in m
    ensures Sum(m) == m[e] + Sum(m - {e})
    decreases |m|
  {
    var f :| f in m && Sum(m) == m[f] + Sum(m - {f});
    if f != e {
      SumPick(m - {f}, e);
      SumPick(m - {e}, f);
      assert m - {f} - {e} == m - {e} - {f};
    }
  }

  lemma {:induction false} SumBelow<K>(total: map<K, int>, was: map<K, int>, delta: map<K, int>)
    requires total.Keys == was.Keys == delta.Keys
    requires forall e | e in total :: total[e] <= was[e] + delta[e]
    ensures Sum(total) <= Sum(was) + Sum(delta)
    decreases |total|
  {
    if e :| e in total {
      SumPick(total, e);
      SumPick(was, e);
      SumPick(delta, e);
      SumBelow(total - {e}, was - {e}, delta - {e});
    } else {
      assert was == map[] && delta == map[] && total == map[];
    }
  }

  lemma {:induction false} SumPointwise<K>(total: map<K, int>, a: map<K, int>, b: map<K, int>)
    requires total.Keys == a.Keys == b.Keys
    requires forall e | e in total :: total[e] == a[e] + b[e]
    ensures Sum(total) == Sum(a) + Sum(b)
    decreases |total|
  {
    if e :| e in total {
      SumPick(total, e);
      SumPick(a, e);
      SumPick(b, e);
      SumPointwise(total - {e}, a - {e}, b - {e});
    } else {
      assert a == map[] && b == map[] && total == map[];
    }
  }

  lemma {:induction false} SumNonZero<K>(m: map<K, int>, part: map<K, int>)
    requires part.Keys <= m.Keys
    requires forall e | e in m :: m[e] == if e in part then part[e] else 0
    ensures Sum(m) == Sum(part)
    decreases |m|
  {
    if e :| e in m && e !in part {
      SumPick(m, e);
      SumNonZero(m - {e}, part);
    } else {
      assert m == part;
    }
  }

  lemma {:induction false} SumIsNatural<K>(m: map<K, int>)
    requires forall e | e in m :: m[e] >= 0
    ensures Sum(m) >= 0
    decreases |m|
  {
    if e :| e in m {
      SumPick(m, e);
      SumIsNatural(m - {e});
    }
  }

  /** A map that is v at e, `rest` on its keys, and zero elsewhere. */
  lemma SumWith<K>(m: map<K, int>, rest: map<K, int>, e: K, v: int)
    requires e in m && e !in rest && rest.Keys <= m.Keys
    requires forall x | x in m :: m[x] == if x == e then v else if x in rest then rest[x] else 0
    ensures Sum(m) == v + Sum(rest)
  {
    var part := rest[e := v];
    SumNonZero(m, part);
    SumPick(part, e);
    assert part - {e} == rest;
  }

  lemma SumAdd<K>(m: map<K, int>, e: K, v: int)
    requires e !in m
    ensures Sum(m[e := v]) == Sum(m) + v
  {
    SumPick(m[e := v], e);
    assert m[e := v] - {e} == m;
  }
}
