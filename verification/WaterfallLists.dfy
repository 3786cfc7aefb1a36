/** Splitting, sorting and grouping the classes, and tables keyed by class name. */
module WaterfallLists {
  import opened Waterfall
  import opened WaterfallTiers

  function Preferred(): ShareClass -> bool { (c: ShareClass) => c.IsPreferred() }
  function Common(): ShareClass -> bool { (c: ShareClass) => !c.IsPreferred() }
  function Participating(): ShareClass -> bool { (c: ShareClass) => c.participating }
  function NonParticipating(): ShareClass -> bool { (c: ShareClass) => !c.participating }

  method SplitClasses(cs: seq<ShareClass>) returns (preferred: seq<ShareClass>, common: seq<ShareClass>)
    ensures preferred == Filter(Preferred(), cs) && common == Filter(Common(), cs)
  {
    preferred, common := [], [];
    for i := 0 to |cs|
      invariant preferred == Filter(Preferred(), cs[..i]) && common == Filter(Common(), cs[..i])
    {
      assert cs[..i + 1] == cs[..i] + [cs[i]];
      FilterSnoc(Preferred(), cs[..i], cs[i]);
      FilterSnoc(Common(), cs[..i], cs[i]);
      if cs[i].seniority > 0 {
        preferred := preferred + [cs[i]];
      } else {
        common := common + [cs[i]];
      }
    }
    assert cs[..|cs|] == cs;
  }

  method FilterClasses(p: ShareClass -> bool, cs: seq<ShareClass>) returns (r: seq<ShareClass>)
    ensures r == Filter(p, cs)
  {
    r := [];
    for i := 0 to |cs|
      invariant r == Filter(p, cs[..i])
    {
      assert cs[..i + 1] == cs[..i] + [cs[i]];
      FilterSnoc(p, cs[..i], cs[i]);
      if p(cs[i]) {
        r := r + [cs[i]];
      }
    }
    assert cs[..|cs|] == cs;
  }

  // ----- sorting

  ghost predicate Descending(cs: seq<ShareClass>) {
    forall i, j :: 0 <= i < j < |cs| ==> cs[i].seniority >= cs[j].seniority
  }

  predicate IsMostSenior(cs: seq<ShareClass>, i: nat)
    requires i < |cs|
  {
    forall c <- cs :: c.seniority <= cs[i].seniority
  }

  lemma {:induction false} SomeMostSenior(cs: seq<ShareClass>) returns (i: nat)
    requires cs != []
    ensures i < |cs| && IsMostSenior(cs, i)
  {
    var n := |cs| - 1;
    if n == 0 {
      i := 0;
    } else {
      i := SomeMostSenior(cs[..n]);
      if cs[n].seniority > cs[i].seniority { i := n; }
    }
  }

  /** The sorted part so far comes before everything that is left. */
  ghost predicate Before(sorted: seq<ShareClass>, rest: seq<ShareClass>) {
    && Descending(sorted)
    && forall i, j :: 0 <= i < |sorted| && 0 <= j < |rest| ==> sorted[i].seniority >= rest[j].seniority
  }

  lemma TakeMostSenior(sorted: seq<ShareClass>, rest: seq<ShareClass>, i: nat)
    requires i < |rest| && IsMostSenior(rest, i) && Before(sorted, rest)
    ensures Before(sorted + [rest[i]], rest[..i] + rest[i + 1..])
  {
    var s, r := sorted + [rest[i]], rest[..i] + rest[i + 1..];
    forall j, k | 0 <= j < |s| && 0 <= k < |r| ensures s[j].seniority >= r[k].seniority {
      assert r[k] == rest[if k < i then k else k + 1];
    }
  }

  /** An unstable sort: among equals any class may come first. */
  method SortBySeniority(cs: seq<ShareClass>) returns (sorted: seq<ShareClass>)
    ensures multiset(sorted) == multiset(cs) && Descending(sorted)
  {
    hide IsMostSenior;
    sorted := [];
    var rest := cs;
    while rest != []
      invariant multiset(sorted) + multiset(rest) == multiset(cs)
      invariant Before(sorted, rest)
      decreases |rest|
    {
      ghost var some := SomeMostSenior(rest);
      var i: nat :| i < |rest| && IsMostSenior(rest, i);
      TakeMostSenior(sorted, rest, i);
      TakeOut(rest, i);
      assert multiset(sorted + [rest[i]]) == multiset(sorted) + multiset{rest[i]};
      sorted, rest := sorted + [rest[i]], rest[..i] + rest[i + 1..];
    }
  }

  // ----- groups of equal seniority

  function Flat(groups: seq<seq<ShareClass>>): seq<ShareClass> {
    if groups == [] then [] else Flat(groups[..|groups| - 1]) + groups[|groups| - 1]
  }

  lemma FlatSnoc(groups: seq<seq<ShareClass>>, g: seq<ShareClass>)
    ensures Flat(groups + [g]) == Flat(groups) + g
  {
    assert (groups + [g])[..|groups + [g]| - 1] == groups;
  }

  /** One rank: at least one class, all of the same seniority. */
  ghost predicate IsRank(g: seq<ShareClass>) {
    g != [] && forall c <- g :: c.seniority == g[0].seniority
  }

  ghost predicate Ranked(groups: seq<seq<ShareClass>>) {
    && (forall i :: 0 <= i < |groups| ==> IsRank(groups[i]))
    && (forall i, j :: 0 <= i < j < |groups| ==> groups[i][0].seniority > groups[j][0].seniority)
  }

  lemma RankedSnoc(groups: seq<seq<ShareClass>>, g: seq<ShareClass>)
    requires Ranked(groups) && IsRank(g)
    requires groups != [] ==> groups[|groups| - 1][0].seniority > g[0].seniority
    ensures Ranked(groups + [g])
  {
    hide IsRank;
  }

  lemma RankGrows(groups: seq<seq<ShareClass>>, g: seq<ShareClass>, c: ShareClass)
    requires g != [] && Ranked(groups + [g]) && c.seniority == g[0].seniority
    ensures Ranked(groups + [g + [c]])
  {
    var hs, ks := groups + [g], groups + [g + [c]];
    assert hs[|groups|] == g;
    forall i | 0 <= i < |ks| ensures IsRank(ks[i]) && ks[i][0] == hs[i][0] {
      assert IsRank(hs[i]);
    }
  }

  method GroupBySeniority(cs: seq<ShareClass>) returns (groups: seq<seq<ShareClass>>)
    requires Descending(cs)
    ensures Flat(groups) == cs && Ranked(groups)
  {
    hide Flat, Ranked;
    groups := [];
    var current: seq<ShareClass> := [];
    var currentSeniority := -1;
    NoRanks();
    for i := 0 to |cs|
      invariant Flat(groups) + current == cs[..i]
      invariant current == [] ==> groups == [] && i == 0
      invariant current != [] ==>
        i > 0 && current[0].seniority == currentSeniority == cs[i - 1].seniority && Ranked(groups + [current])
    {
      var c := cs[i];
      assert cs[..i + 1] == cs[..i] + [c];
      assert IsRank([c]);
      if c.seniority != currentSeniority {
        if |current| > 0 {
          FlatSnoc(groups, current);
          RankedSnoc(groups + [current], [c]);
          groups := groups + [current];
        } else {
          RankedSnoc(groups, [c]);
        }
        current, currentSeniority := [c], c.seniority;
      } else {
        if |current| > 0 {
          RankGrows(groups, current, c);
        } else {
          RankedSnoc(groups, [c]);
          assert current + [c] == [c];
        }
        current := current + [c];
      }
    }
    if |current| > 0 {
      FlatSnoc(groups, current);
      groups := groups + [current];
    }
    assert cs[..|cs|] == cs;
  }

  lemma NoRanks()
    ensures Flat([]) == [] && Ranked([])
  {
  }

  // ----- tables keyed by name

  ghost function Names(cs: seq<ShareClass>): set<string> {
    set c | c in cs :: c.name
  }

  /** A tier table: exactly the listed classes, each with its entry. */
  ghost predicate Table(d: map<string, Distribution>, cs: seq<ShareClass>, entry: ShareClass -> Distribution) {
    d.Keys == Names(cs) && forall c <- cs :: d[c.name] == entry(c)
  }

  /** A running ledger: exactly the listed classes, each with its payout so far. */
  ghost predicate Ledger(m: map<string, real>, cs: seq<ShareClass>, paid: Weight) {
    m.Keys == Names(cs) && forall c <- cs :: m[c.name] == paid(c)
  }

  lemma NamesSnoc(cs: seq<ShareClass>, c: ShareClass)
    ensures Names(cs + [c]) == Names(cs) + {c.name}
  {
  }

  lemma TableSnoc(d: map<string, Distribution>, cs: seq<ShareClass>, c: ShareClass, entry: ShareClass -> Distribution)
    requires Table(d, cs, entry) && c.name !in Names(cs)
    ensures Table(d[c.name := entry(c)], cs + [c], entry)
  {
    NamesSnoc(cs, c);
    assert forall b <- cs :: b.name in Names(cs);
  }

  lemma LedgerSnoc(m: map<string, real>, cs: seq<ShareClass>, c: ShareClass, paid: Weight)
    requires Ledger(m, cs, paid) && c.name !in Names(cs)
    ensures Ledger(m[c.name := paid(c)], cs + [c], paid)
  {
    NamesSnoc(cs, c);
    assert forall b <- cs :: b.name in Names(cs);
  }

  lemma NewName(cs: seq<ShareClass>, i: nat)
    requires DistinctNames(cs) && i < |cs|
    ensures cs[i].name !in Names(cs[..i])
  {
  }

  /** A Go map read: an absent class has been paid nothing. */
  function PaidSoFar(m: map<string, real>, name: string): real {
    if name in m then m[name] else 0.0
  }
}
