/** The demand algebra of a cascade edge: a finite or co-finite set of speaker uids. */
module Wants {
  import opened Sizes

  type Uid = string

  /** `all` selects which payload counts: "everyone but `except`" or "just `only`". */
  datatype WantSet = WantSet(all: bool, except: set<Uid>, only: set<Uid>)
  {
    predicate Wants(uid: Uid) {
      if all then uid !in except else uid in only
    }

    predicate IsNone() {
      !all && only == {}
    }

    function Payload(): set<Uid> {
      if all then except else only
    }

    predicate Equal(o: WantSet) {
      all == o.all && Payload() == o.Payload()
    }
  }

  const WANT_NONE := WantSet(false, {}, {})

  function WantAllExcept(uids: set<Uid>): WantSet {
    WantSet(true, uids, {})
  }

  function WantOnly(uids: set<Uid>): WantSet {
    WantSet(false, {}, uids)
  }

  /** The frame payload: the list is `except` when `all`, the include list otherwise. */
  datatype WireWant = WireWant(all: bool, uids: seq<Uid>)

  function Elements(xs: seq<Uid>): set<Uid> {
    set x | x in xs
  }

  function WantFromWire(ww: WireWant): WantSet {
    if ww.all then WantAllExcept(Elements(ww.uids)) else WantOnly(Elements(ww.uids))
  }

  // ---------------------------------------------------------------------------------------------
  // Equality is extensional, although uids are unbounded.
  // ---------------------------------------------------------------------------------------------

  /** Every finite set of strings misses some string. */
  lemma {:induction false} FreshUid(s: set<Uid>) returns (x: Uid)
    ensures x !in s
    ensures forall y | y in s :: |y| < |x|
    decreases s
  {
    if s == {} {
      x := "a";
    } else {
      var y :| y in s;
      var x' := FreshUid(s - {y});
      x := x' + y + "a";
      forall z | z in s ensures |z| < |x| {
        if z != y {
          assert z in s - {y};
        }
      }
    }
  }

  lemma EqualIsExtensional(a: WantSet, b: WantSet)
    ensures a.Equal(b) <==> forall u: Uid :: a.Wants(u) <==> b.Wants(u)
  {
    if forall u: Uid :: a.Wants(u) <==> b.Wants(u) {
      var x := FreshUid(a.except + b.except + a.only + b.only);
      assert a.Wants(x) <==> b.Wants(x);
      assert a.all == b.all;
      forall u: Uid ensures u in a.Payload() <==> u in b.Payload() {
        assert a.Wants(u) <==> b.Wants(u);
      }
    }
  }

  lemma IsNoneIsEmpty(a: WantSet)
    ensures a.IsNone() <==> forall u: Uid :: !a.Wants(u)
  {
    EqualIsExtensional(a, WANT_NONE);
    assert a.IsNone() <==> a.Equal(WANT_NONE);
    assert forall u: Uid :: !WANT_NONE.Wants(u);
  }

  // ---------------------------------------------------------------------------------------------
  // Union
  // ---------------------------------------------------------------------------------------------

  /** The aggregation operator, by the three identities of finite and co-finite sets. */
  function Union(a: WantSet, b: WantSet): (r: WantSet)
    ensures forall u: Uid :: r.Wants(u) <==> a.Wants(u) || b.Wants(u)
  {
    if a.all && b.all then WantAllExcept(a.except * b.except)
    else if a.all then WantAllExcept(a.except - b.only)
    else if b.all then WantAllExcept(b.except - a.only)
    else WantOnly(a.only + b.only)
  }

  /** `unionAllExceptOnly`: what stays excluded once the other side asks for `only`. */
  method UnionAllExceptOnly(ae: WantSet, only: WantSet) returns (r: WantSet)
    ensures r == WantAllExcept(ae.except - only.only)
  {
    var diff: set<Uid> := {};
    var todo := ae.except;
    while todo != {}
      invariant todo <= ae.except
      invariant diff == (ae.except - todo) - only.only
      decreases todo
    {
      var x :| x in todo;
      todo := todo - {x};
      if x !in only.only {
        diff := diff + {x};
      }
    }
    r := WantSet(true, diff, {});
  }

  /** The loops of `Union`; map iteration order is arbitrary. */
  method ComputeUnion(a: WantSet, b: WantSet) returns (r: WantSet)
    ensures r == Union(a, b)
    ensures forall u: Uid :: r.Wants(u) <==> a.Wants(u) || b.Wants(u)
  {
    if a.all && b.all {
      var inter: set<Uid> := {};
      var todo := a.except;
      while todo != {}
        invariant todo <= a.except
        invariant inter == (a.except - todo) * b.except
        decreases todo
      {
        var x :| x in todo;
        todo := todo - {x};
        if x in b.except {
          inter := inter + {x};
        }
      }
      r := WantSet(true, inter, {});
    } else if a.all {
      r := UnionAllExceptOnly(a, b);
    } else if b.all {
      r := UnionAllExceptOnly(b, a);
    } else {
      var u: set<Uid> := {};
      var todo := a.only;
      while todo != {}
        invariant todo <= a.only
        invariant u == a.only - todo
        decreases todo
      {
        var x :| x in todo;
        todo := todo - {x};
        u := u + {x};
      }
      todo := b.only;
      while todo != {}
        invariant todo <= b.only
        invariant u == a.only + (b.only - todo)
        decreases todo
      {
        var x :| x in todo;
        todo := todo - {x};
        u := u + {x};
      }
      r := WantSet(false, {}, u);
    }
  }

  lemma EqualSizeSubset(a: set<Uid>, b: set<Uid>)
    requires |a| == |b| && a <= b
    ensures a == b
  {
    if x :| x in b && x !in a {
      assert a <= b - {x};
      SubsetSize(a, b - {x});
    }
  }

  /** `setEqual` compares sizes and then looks one way only. */
  method SetEqual(a: set<Uid>, b: set<Uid>) returns (eq: bool)
    ensures eq <==> a == b
  {
    if |a| != |b| {
      return false;
    }
    var todo := a;
    while todo != {}
      invariant todo <= a
      invariant a - todo <= b
      decreases todo
    {
      var x :| x in todo;
      if x !in b {
        return false;
      }
      todo := todo - {x};
    }
    EqualSizeSubset(a, b);
    eq := true;
  }

  // ---------------------------------------------------------------------------------------------
  // Aggregating many wants: only what is accepted by some member counts, in any order.
  // ---------------------------------------------------------------------------------------------

  function FoldUnion(base: WantSet, ws: seq<WantSet>): WantSet
    decreases |ws|
  {
    if ws == [] then base else FoldUnion(Union(base, ws[0]), ws[1..])
  }

  lemma {:induction false} FoldAccepts(base: WantSet, ws: seq<WantSet>, u: Uid)
    ensures FoldUnion(base, ws).Wants(u) <==> base.Wants(u) || exists i | 0 <= i < |ws| :: ws[i].Wants(u)
    decreases |ws|
  {
    if ws != [] {
      FoldAccepts(Union(base, ws[0]), ws[1..], u);
      assert forall i | 0 <= i < |ws| - 1 :: ws[1..][i] == ws[i + 1];
      if i :| 0 <= i < |ws| && ws[i].Wants(u) {
        assert i == 0 || ws[1..][i - 1].Wants(u);
      }
    }
  }

  lemma SomeMemberWants(ws: seq<WantSet>, vs: seq<WantSet>, u: Uid)
    requires multiset(ws) == multiset(vs)
    requires exists i | 0 <= i < |ws| :: ws[i].Wants(u)
    ensures exists i | 0 <= i < |vs| :: vs[i].Wants(u)
  {
    var i :| 0 <= i < |ws| && ws[i].Wants(u);
    assert ws[i] in multiset(vs);
    var k :| 0 <= k < |vs| && vs[k] == ws[i];
  }

  lemma FoldOrderIrrelevant(base: WantSet, ws: seq<WantSet>, vs: seq<WantSet>)
    requires multiset(ws) == multiset(vs)
    ensures FoldUnion(base, ws).Equal(FoldUnion(base, vs))
  {
    forall u: Uid ensures FoldUnion(base, ws).Wants(u) <==> FoldUnion(base, vs).Wants(u) {
      FoldAccepts(base, ws, u);
      FoldAccepts(base, vs, u);
      if exists i | 0 <= i < |ws| :: ws[i].Wants(u) {
        SomeMemberWants(ws, vs, u);
      }
      if exists i | 0 <= i < |vs| :: vs[i].Wants(u) {
        SomeMemberWants(vs, ws, u);
      }
    }
    EqualIsExtensional(FoldUnion(base, ws), FoldUnion(base, vs));
  }

  // ---------------------------------------------------------------------------------------------
  // The wire form
  // ---------------------------------------------------------------------------------------------

  /** Lexicographic order, the one `sort.Strings` uses. */
  predicate Less(a: string, b: string) {
    b != [] && (a == [] || a[0] < b[0] || (a[0] == b[0] && Less(a[1..], b[1..])))
  }

  lemma {:induction false} LessTrichotomy(a: string, b: string)
    ensures Less(a, b) || a == b || Less(b, a)
    ensures !(Less(a, b) && Less(b, a))
  {
    if a != [] && b != [] {
      assert a == [a[0]] + a[1..] && b == [b[0]] + b[1..];
      LessTrichotomy(a[1..], b[1..]);
    }
  }

  lemma {:induction false} LessTransitive(a: string, b: string, c: string)
    requires Less(a, b) && Less(b, c)
    ensures Less(a, c)
  {
    if a != [] && a[0] == b[0] && b[0] == c[0] {
      LessTransitive(a[1..], b[1..], c[1..]);
    }
  }

  ghost predicate StrictlySorted(xs: seq<Uid>) {
    forall i, j | 0 <= i < j < |xs| :: Less(xs[i], xs[j])
  }

  /** A strictly sorted list is determined by its elements. */
  lemma {:induction false} SortedListIsUnique(xs: seq<Uid>, ys: seq<Uid>)
    requires StrictlySorted(xs) && StrictlySorted(ys) && Elements(xs) == Elements(ys)
    ensures xs == ys
    decreases |xs|
  {
    assert forall x :: x in xs <==> x in Elements(xs);
    assert forall y :: y in ys <==> y in Elements(ys);
    assert xs != [] ==> xs[0] in xs && xs[0] in Elements(ys) && xs[0] in ys;
    assert ys != [] ==> ys[0] in ys && ys[0] in Elements(xs) && ys[0] in xs;
    if xs != [] && ys != [] {
      var i :| 0 <= i < |ys| && ys[i] == xs[0];
      var j :| 0 <= j < |xs| && xs[j] == ys[0];
      LessTrichotomy(xs[0], ys[0]);
      assert xs[0] == ys[0];
      forall x ensures x in Elements(xs[1..]) <==> x in Elements(ys[1..]) {
        LessTrichotomy(x, x);
        assert x in Elements(xs[1..]) <==> x in Elements(xs) && x != xs[0];
        assert x in Elements(ys[1..]) <==> x in Elements(ys) && x != ys[0];
      }
      SortedListIsUnique(xs[1..], ys[1..]);
      assert xs == [xs[0]] + xs[1..] && ys == [ys[0]] + ys[1..];
    }
  }

  /** `ww` is the encoding of `w`: same mode, the payload listed once, in order. */
  ghost predicate IsWireOf(w: WantSet, ww: WireWant) {
    ww.all == w.all && StrictlySorted(ww.uids) && Elements(ww.uids) == w.Payload()
  }

  lemma InsertedElements(xs: seq<Uid>, i: nat, x: Uid)
    requires i <= |xs|
    ensures Elements(xs[..i] + [x] + xs[i..]) == Elements(xs) + {x}
  {
    assert xs == xs[..i] + xs[i..];
  }

  method InsertSorted(xs: seq<Uid>, x: Uid) returns (ys: seq<Uid>)
    requires StrictlySorted(xs) && x !in xs
    ensures StrictlySorted(ys) && Elements(ys) == Elements(xs) + {x}
  {
    var i := 0;
    while i < |xs| && Less(xs[i], x)
      invariant 0 <= i <= |xs|
      invariant forall k | 0 <= k < i :: Less(xs[k], x)
    {
      i := i + 1;
    }
    forall k | i <= k < |xs| ensures Less(x, xs[k]) {
      LessTrichotomy(xs[i], x);
      if i < k {
        LessTransitive(x, xs[i], xs[k]);
      }
    }
    ys := xs[..i] + [x] + xs[i..];
    InsertedElements(xs, i, x);
  }

  /** `toWire`: collect the payload in iteration order, sorted. */
  method ToWire(w: WantSet) returns (ww: WireWant)
    ensures IsWireOf(w, ww)
    ensures WantFromWire(ww).Equal(w)
  {
    var uids: seq<Uid> := [];
    var todo := w.Payload();
    while todo != {}
      invariant todo <= w.Payload()
      invariant StrictlySorted(uids)
      invariant Elements(uids) == w.Payload() - todo
      decreases todo
    {
      var x :| x in todo;
      assert x !in Elements(uids);
      uids := InsertSorted(uids, x);
      todo := todo - {x};
    }
    ww := WireWant(w.all, uids);
  }

  lemma WireRoundTrip(w: WantSet, ww: WireWant)
    requires IsWireOf(w, ww)
    ensures WantFromWire(ww).Equal(w)
    ensures forall u: Uid :: WantFromWire(ww).Wants(u) <==> w.Wants(u)
  {
    EqualIsExtensional(WantFromWire(ww), w);
  }

  /** Two demands are equivalent exactly when their frames are identical. */
  lemma EqualIffSameWire(a: WantSet, b: WantSet, wa: WireWant, wb: WireWant)
    requires IsWireOf(a, wa) && IsWireOf(b, wb)
    ensures a.Equal(b) <==> wa == wb
  {
    if a.Equal(b) {
      SortedListIsUnique(wa.uids, wb.uids);
    }
  }
}
