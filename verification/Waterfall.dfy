/** Share classes and sums over lists of them. */
module Waterfall {
  import opened Arithmetic

  datatype ShareClass = ShareClass(
    name: string, shares: int, investment: real, multiple: real, participating: bool, cap: real,
    seniority: int, ratio: real)
  {
    /** The liquidation preference. */
    function Claim(): real {
      investment * multiple
    }

    function AsConverted(): real {
      shares as real * ratio
    }

    predicate IsPreferred() {
      seniority > 0
    }

    predicate Participates() {
      IsPreferred() && participating
    }

    predicate MayConvert() {
      IsPreferred() && !participating
    }

    /** A ratio of zero or less means one to one. */
    function Normalized(): ShareClass {
      if ratio <= 0.0 then this.(ratio := 1.0) else this
    }

    predicate IsSound() {
      shares >= 0 && investment >= 0.0 && multiple >= 0.0
    }
  }

  type Weight = ShareClass -> real

  function Filter(p: ShareClass -> bool, cs: seq<ShareClass>): seq<ShareClass> {
    if cs == [] then []
    else Filter(p, cs[..|cs| - 1]) + (if p(cs[|cs| - 1]) then [cs[|cs| - 1]] else [])
  }

  function Max0(x: real): real {
    if x > 0.0 then x else 0.0
  }

  ghost predicate DistinctNames(cs: seq<ShareClass>) {
    forall i, j :: 0 <= i < j < |cs| ==> cs[i].name != cs[j].name
  }

  ghost predicate AllSound(cs: seq<ShareClass>) {
    forall c <- cs :: c.IsSound()
  }

  // ----- sums

  lemma {:induction false} SumConcat(w: Weight, cs: seq<ShareClass>, ds: seq<ShareClass>)
    ensures SumReal(w, cs + ds) == SumReal(w, cs) + SumReal(w, ds)
  {
    if ds == [] {
      assert cs + ds == cs;
    } else {
      var n := |ds| - 1;
      SumConcat(w, cs, ds[..n]);
      assert cs + ds == (cs + ds[..n]) + [ds[n]];
      SumRealSnoc(w, cs + ds[..n], ds[n]);
    }
  }

  lemma TakeOut(cs: seq<ShareClass>, i: nat)
    requires i < |cs|
    ensures multiset(cs[..i] + cs[i + 1..]) == multiset(cs) - multiset{cs[i]}
  {
    assert cs == cs[..i] + [cs[i]] + cs[i + 1..];
  }

  lemma SumTakeOut(w: Weight, cs: seq<ShareClass>, i: nat)
    requires i < |cs|
    ensures SumReal(w, cs) == SumReal(w, cs[..i] + cs[i + 1..]) + w(cs[i])
  {
    hide SumReal;
    assert cs == (cs[..i] + [cs[i]]) + cs[i + 1..];
    SumConcat(w, cs[..i] + [cs[i]], cs[i + 1..]);
    SumRealSnoc(w, cs[..i], cs[i]);
    SumConcat(w, cs[..i], cs[i + 1..]);
  }

  /** Listing order does not matter to a sum. */
  lemma {:induction false} SumIgnoresOrder(w: Weight, cs: seq<ShareClass>, ds: seq<ShareClass>)
    requires multiset(cs) == multiset(ds)
    ensures SumReal(w, cs) == SumReal(w, ds)
  {
    hide SumReal;
    if cs == [] {
      assert ds == [] by { assert |multiset(ds)| == 0; }
    } else {
      var n, c := |cs| - 1, cs[|cs| - 1];
      assert c in multiset(ds);
      var i :| 0 <= i < |ds| && ds[i] == c;
      TakeOut(cs, n);
      TakeOut(ds, i);
      SumTakeOut(w, cs, n);
      SumTakeOut(w, ds, i);
      SumIgnoresOrder(w, cs[..n] + cs[n + 1..], ds[..i] + ds[i + 1..]);
    }
  }

  lemma {:induction false} SumEqual(v: Weight, w: Weight, cs: seq<ShareClass>)
    requires forall c <- cs :: v(c) == w(c)
    ensures SumReal(v, cs) == SumReal(w, cs)
  {
    if cs != [] {
      SumEqual(v, w, cs[..|cs| - 1]);
    }
  }

  lemma {:induction false} SumAtMost(v: Weight, w: Weight, cs: seq<ShareClass>)
    requires forall c <- cs :: v(c) <= w(c)
    ensures SumReal(v, cs) <= SumReal(w, cs)
  {
    if cs != [] {
      SumAtMost(v, w, cs[..|cs| - 1]);
    }
  }

  lemma {:induction false} SumZero(w: Weight, cs: seq<ShareClass>)
    requires forall c <- cs :: w(c) == 0.0
    ensures SumReal(w, cs) == 0.0
  {
    if cs != [] {
      SumZero(w, cs[..|cs| - 1]);
    }
  }

  lemma {:induction false} SumNonNegative(w: Weight, cs: seq<ShareClass>)
    requires forall c <- cs :: w(c) >= 0.0
    ensures SumReal(w, cs) >= 0.0
    ensures forall c <- cs :: w(c) <= SumReal(w, cs)
  {
    if cs != [] {
      SumNonNegative(w, cs[..|cs| - 1]);
      assert cs == cs[..|cs| - 1] + [cs[|cs| - 1]];
    }
  }

  /** A weight that is the sum of two others. */
  lemma {:induction false} SumAdds(u: Weight, v: Weight, w: Weight, cs: seq<ShareClass>)
    requires forall c <- cs :: w(c) == u(c) + v(c)
    ensures SumReal(w, cs) == SumReal(u, cs) + SumReal(v, cs)
  {
    if cs != [] {
      SumAdds(u, v, w, cs[..|cs| - 1]);
    }
  }

  /** A weight that is a fixed multiple of another. */
  lemma {:induction false} SumScales(k: real, v: Weight, w: Weight, cs: seq<ShareClass>)
    requires forall c <- cs :: w(c) == k * v(c)
    ensures SumReal(w, cs) == k * SumReal(v, cs)
  {
    if cs != [] {
      var n := |cs| - 1;
      SumScales(k, v, w, cs[..n]);
      assert k * (SumReal(v, cs[..n]) + v(cs[n])) == k * SumReal(v, cs[..n]) + k * v(cs[n]);
    }
  }

  // ----- filters

  lemma FilterSnoc(p: ShareClass -> bool, cs: seq<ShareClass>, c: ShareClass)
    ensures Filter(p, cs + [c]) == Filter(p, cs) + (if p(c) then [c] else [])
  {
    assert (cs + [c])[..|cs + [c]| - 1] == cs;
  }

  lemma {:induction false} FilterMembers(p: ShareClass -> bool, cs: seq<ShareClass>)
    ensures forall c :: c in Filter(p, cs) <==> c in cs && p(c)
  {
    if cs != [] {
      FilterMembers(p, cs[..|cs| - 1]);
      assert cs == cs[..|cs| - 1] + [cs[|cs| - 1]];
    }
  }

  /** Summing over a filtered list is summing the weight where the filter holds. */
  lemma {:induction false} SumFiltered(v: Weight, w: Weight, p: ShareClass -> bool, cs: seq<ShareClass>)
    requires forall c <- cs :: w(c) == if p(c) then v(c) else 0.0
    ensures SumReal(v, Filter(p, cs)) == SumReal(w, cs)
  {
    if cs != [] {
      var n := |cs| - 1;
      SumFiltered(v, w, p, cs[..n]);
      if p(cs[n]) {
        SumRealSnoc(v, Filter(p, cs[..n]), cs[n]);
      } else {
        assert Filter(p, cs[..n]) + [] == Filter(p, cs[..n]);
      }
    }
  }

  lemma Snoc(a: seq<ShareClass>, b: seq<ShareClass>, cs: seq<ShareClass>, c: ShareClass)
    requires multiset(a) + multiset(b) == multiset(cs)
    ensures multiset(a + [c]) + multiset(b) == multiset(a) + multiset(b + [c]) == multiset(cs + [c])
    ensures a + [] == a && b + [] == b
  {
  }

  /** Splitting a list by a test keeps the classes. */
  lemma {:induction false} FilterSplits(p: ShareClass -> bool, q: ShareClass -> bool, cs: seq<ShareClass>)
    requires forall c <- cs :: q(c) == !p(c)
    ensures multiset(Filter(p, cs)) + multiset(Filter(q, cs)) == multiset(cs)
  {
    if cs != [] {
      var n := |cs| - 1;
      FilterSplits(p, q, cs[..n]);
      assert cs == cs[..n] + [cs[n]];
      FilterSnoc(p, cs[..n], cs[n]);
      FilterSnoc(q, cs[..n], cs[n]);
      hide *;
      Snoc(Filter(p, cs[..n]), Filter(q, cs[..n]), cs[..n], cs[n]);
    }
  }
}
