/** The waterfall as it runs: one pot, one ledger, four tier tables, in order. */
module WaterfallEngine {
  import opened GoBasics
  import opened Arithmetic
  import opened Waterfall
  import opened WaterfallTiers
  import opened WaterfallLists

  /** A listing of exactly the preferred classes. */
  ghost predicate IsPreferredOf(ps: seq<ShareClass>, cs: seq<ShareClass>) {
    multiset(ps) == multiset(Filter(Preferred(), cs))
  }

  lemma PreferredMembers(ps: seq<ShareClass>, cs: seq<ShareClass>)
    requires IsPreferredOf(ps, cs)
    ensures forall c :: c in ps <==> c in cs && c.IsPreferred()
  {
    FilterMembers(Preferred(), cs);
    forall c ensures c in ps <==> c in Filter(Preferred(), cs) {
      assert c in multiset(ps) <==> c in multiset(Filter(Preferred(), cs));
    }
  }

  /** A weight that is zero on common stock sums the same over the preferred classes and over all of them. */
  lemma PreferredSum(w: Weight, ps: seq<ShareClass>, cs: seq<ShareClass>)
    requires IsPreferredOf(ps, cs) && forall c <- cs :: !c.IsPreferred() ==> w(c) == 0.0
    ensures SumReal(w, ps) == SumReal(w, cs)
  {
    hide SumReal, Filter;
    SumFiltered(w, w, Preferred(), cs);
    SumIgnoresOrder(w, ps, Filter(Preferred(), cs));
  }

  // ----- ranks and sums

  lemma {:induction false} FlatConcat(a: seq<seq<ShareClass>>, b: seq<seq<ShareClass>>)
    ensures Flat(a + b) == Flat(a) + Flat(b)
  {
    hide Flat;
    NoRanks();
    if b == [] {
      assert a + b == a && Flat(a) + [] == Flat(a);
    } else {
      var n := |b| - 1;
      FlatConcat(a, b[..n]);
      assert a + b == (a + b[..n]) + [b[n]] && b == b[..n] + [b[n]];
      FlatSnoc(a + b[..n], b[n]);
      FlatSnoc(b[..n], b[n]);
      assert (Flat(a) + Flat(b[..n])) + b[n] == Flat(a) + (Flat(b[..n]) + b[n]);
    }
  }

  lemma {:induction false} FlatMember(groups: seq<seq<ShareClass>>, c: ShareClass) returns (i: nat)
    requires c in Flat(groups)
    ensures i < |groups| && c in groups[i]
  {
    var n := |groups| - 1;
    if c in groups[n] {
      i := n;
    } else {
      i := FlatMember(groups[..n], c);
    }
  }

  lemma FlatPrefix(groups: seq<seq<ShareClass>>, g: nat)
    requires g < |groups|
    ensures Flat(groups[..g + 1]) == Flat(groups[..g]) + groups[g]
  {
    hide Flat;
    assert groups[..g + 1] == groups[..g] + [groups[g]];
    FlatSnoc(groups[..g], groups[g]);
  }

  lemma FlatSplit(groups: seq<seq<ShareClass>>, g: nat)
    requires g < |groups|
    ensures Flat(groups) == Flat(groups[..g]) + groups[g] + Flat(groups[g + 1..])
    ensures Flat(groups[..g + 1]) == Flat(groups[..g]) + groups[g]
  {
    hide Flat;
    FlatPrefix(groups, g);
    FlatConcat(groups[..g + 1], groups[g + 1..]);
    assert groups[..g + 1] + groups[g + 1..] == groups;
  }

  lemma RankOrder(groups: seq<seq<ShareClass>>, g: nat, c: ShareClass)
    requires Ranked(groups) && g < |groups|
    ensures c in Flat(groups[..g]) ==> c.seniority > groups[g][0].seniority
    ensures c in groups[g] ==> c.seniority == groups[g][0].seniority
    ensures c in Flat(groups[g + 1..]) ==> c.seniority < groups[g][0].seniority
  {
    hide Flat;
    assert IsRank(groups[g]);
    if c in Flat(groups[..g]) {
      var i := FlatMember(groups[..g], c);
      assert IsRank(groups[i]);
    }
    if c in Flat(groups[g + 1..]) {
      var i := FlatMember(groups[g + 1..], c);
      assert groups[g + 1..][i] == groups[g + 1 + i];
      assert IsRank(groups[g + 1 + i]);
    }
  }

  /** For a class of rank g, the senior claims are those of the ranks before it, and the rank's claims its own
        group's. */
  lemma RankSums(groups: seq<seq<ShareClass>>, cs: seq<ShareClass>, g: nat)
    requires Ranked(groups) && g < |groups| && IsPreferredOf(Flat(groups), cs)
    ensures groups[g] != []
    ensures SumReal(ClaimsAbove(groups[g][0].seniority), cs) == SumReal(ClaimOf(), Flat(groups[..g]))
    ensures SumReal(ClaimsAt(groups[g][0].seniority), cs) == SumReal(ClaimOf(), groups[g])
  {
    hide SumReal, Flat, Ranked, IsPreferredOf;
    assert IsRank(groups[g]) by { RankAt(groups, g); }
    var s, done, rest := groups[g][0].seniority, Flat(groups[..g]), Flat(groups[g + 1..]);
    FlatSplit(groups, g);
    PreferredMembers(Flat(groups), cs);
    assert groups[g][0] in Flat(groups);
    forall c { RankOrder(groups, g, c); }
    PreferredSum(ClaimsAbove(s), Flat(groups), cs);
    PreferredSum(ClaimsAt(s), Flat(groups), cs);
    SumThree(ClaimsAbove(s), done, groups[g], rest);
    SumThree(ClaimsAt(s), done, groups[g], rest);
    SumEqual(ClaimsAbove(s), ClaimOf(), done);
    SumZero(ClaimsAbove(s), groups[g]);
    SumZero(ClaimsAbove(s), rest);
    SumZero(ClaimsAt(s), done);
    SumEqual(ClaimsAt(s), ClaimOf(), groups[g]);
    SumZero(ClaimsAt(s), rest);
  }

  lemma RankAt(groups: seq<seq<ShareClass>>, g: nat)
    requires Ranked(groups) && g < |groups|
    ensures IsRank(groups[g])
  {
  }

  lemma SumThree(w: Weight, a: seq<ShareClass>, b: seq<ShareClass>, c: seq<ShareClass>)
    ensures SumReal(w, a + b + c) == SumReal(w, a) + SumReal(w, b) + SumReal(w, c)
  {
    SumConcat(w, a + b, c);
    SumConcat(w, a, b);
  }

  // ----- tier 1

  function Tier1Entry(cs: seq<ShareClass>, proceeds: real): ShareClass -> Distribution {
    (c: ShareClass) => Paid1(c, Tier1(cs, proceeds, c))
  }

  /** The classes paid so far in tier 1, in the table and in the ledger. */
  ghost predicate Paid(dist: map<string, Distribution>, ledger: map<string, real>, done: seq<ShareClass>,
                       cs: seq<ShareClass>, proceeds: real)
  {
    Table(dist, done, Tier1Entry(cs, proceeds)) && Ledger(ledger, done, Tier1Of(cs, proceeds))
  }

  lemma PaidSnoc(dist: map<string, Distribution>, ledger: map<string, real>, done: seq<ShareClass>,
                 cs: seq<ShareClass>, proceeds: real, c: ShareClass, payout: real)
    requires Paid(dist, ledger, done, cs, proceeds) && DistinctNames(done + [c])
    requires payout == Tier1(cs, proceeds, c)
    ensures PaidSoFar(ledger, c.name) == 0.0
    ensures Paid(dist[c.name := Paid1(c, payout)], ledger[c.name := payout], done + [c], cs, proceeds)
  {
    hide Tier1, Table, Ledger, Paid1;
    NewName(done + [c], |done|);
    assert (done + [c])[..|done|] == done;
    TableSnoc(dist, done, c, Tier1Entry(cs, proceeds));
    LedgerSnoc(ledger, done, c, Tier1Of(cs, proceeds));
    NotPaidYet(ledger, done, c, Tier1Of(cs, proceeds));
  }

  lemma NotPaidYet(m: map<string, real>, done: seq<ShareClass>, c: ShareClass, paid: Weight)
    requires Ledger(m, done, paid) && c.name !in Names(done)
    ensures PaidSoFar(m, c.name) == 0.0
  {
  }

  method SumClaims(group: seq<ShareClass>) returns (total: real)
    ensures total == SumReal(ClaimOf(), group)
  {
    total := 0.0;
    for i := 0 to |group|
      invariant total == SumReal(ClaimOf(), group[..i])
    {
      assert group[..i + 1] == group[..i] + [group[i]];
      SumRealSnoc(ClaimOf(), group[..i], group[i]);
      total := total + group[i].investment * group[i].multiple;
    }
    assert group[..|group|] == group;
  }

  /** Pays one rank out of the pot: in full if the pot covers it, pro rata otherwise. */
  method PayRank(group: seq<ShareClass>, pot: real, dist: map<string, Distribution>, ledger: map<string, real>,
                 ghost done: seq<ShareClass>, ghost cs: seq<ShareClass>, ghost proceeds: real)
    returns (remaining: real, dist': map<string, Distribution>, ledger': map<string, real>)
    requires Paid(dist, ledger, done, cs, proceeds) && DistinctNames(done + group)
    requires pot >= 0.0
    requires forall c <- group :: pot == Max0(proceeds - SumReal(ClaimsAbove(c.seniority), cs))
    requires forall c <- group :: SumReal(ClaimsAt(c.seniority), cs) == SumReal(ClaimOf(), group)
    ensures remaining == Max0(pot - SumReal(ClaimOf(), group))
    ensures Paid(dist', ledger', done + group, cs, proceeds)
  {
    hide SumReal, Paid, Paid1;
    dist', ledger', remaining := dist, ledger, pot;
    var totalLiqPref := SumClaims(group);
    NoSum(ClaimOf());
    assert done + group[..0] == done;
    if remaining >= totalLiqPref {
      for i := 0 to |group|
        invariant remaining == pot - SumReal(ClaimOf(), group[..i])
        invariant Paid(dist', ledger', done + group[..i], cs, proceeds)
      {
        var c := group[i];
        assert group[..i + 1] == group[..i] + [c];
        SumRealSnoc(ClaimOf(), group[..i], c);
        assert done + group[..i + 1] == (done + group[..i]) + [c];
        var payout := c.investment * c.multiple;
        assert payout == Tier1(cs, proceeds, c);
        NamesPrefix(done + group, |done| + i + 1);
        assert (done + group)[..|done| + i + 1] == done + group[..i + 1];
        PaidSnoc(dist', ledger', done + group[..i], cs, proceeds, c, payout);
        remaining := remaining - payout;
        ledger' := ledger'[c.name := PaidSoFar(ledger', c.name) + payout];
        dist' := dist'[c.name := Distribution(payout, 0.0, 0.0, payout, SafeDivide(payout, c.shares as real),
                                              SafeDivide(ledger'[c.name], c.investment))];
        assert dist'[c.name] == Paid1(c, payout) by { Paid1Is(c, payout); }
      }
    } else {
      for i := 0 to |group|
        invariant Paid(dist', ledger', done + group[..i], cs, proceeds)
      {
        var c := group[i];
        assert group[..i + 1] == group[..i] + [c];
        assert done + group[..i + 1] == (done + group[..i]) + [c];
        var share := SafeDivide(c.investment * c.multiple, totalLiqPref);
        var payout := remaining * share;
        assert payout == Tier1(cs, proceeds, c);
        NamesPrefix(done + group, |done| + i + 1);
        assert (done + group)[..|done| + i + 1] == done + group[..i + 1];
        PaidSnoc(dist', ledger', done + group[..i], cs, proceeds, c, payout);
        ledger' := ledger'[c.name := PaidSoFar(ledger', c.name) + payout];
        dist' := dist'[c.name := Distribution(payout, 0.0, 0.0, payout, SafeDivide(payout, c.shares as real),
                                              SafeDivide(ledger'[c.name], c.investment))];
        assert dist'[c.name] == Paid1(c, payout) by { Paid1Is(c, payout); }
      }
      remaining := 0.0;
    }
    assert group[..|group|] == group;
  }

  lemma Paid1Is(c: ShareClass, payout: real)
    ensures Paid1(c, payout) == Distribution(payout, 0.0, 0.0, payout, SafeDivide(payout, c.shares as real),
                                             SafeDivide(payout, c.investment))
  {
  }

  lemma NoSum(w: Weight)
    ensures SumReal(w, []) == 0.0
  {
  }

  lemma NamesPrefix(cs: seq<ShareClass>, n: nat)
    requires DistinctNames(cs) && n <= |cs|
    ensures DistinctNames(cs[..n])
  {
  }

  /** Tier 1: the ranks in order of seniority, out of the whole proceeds. */
  method PayPreferences(ps: seq<ShareClass>, proceeds: real, ghost cs: seq<ShareClass>)
    returns (remaining: real, dist: map<string, Distribution>, ledger: map<string, real>)
    requires Descending(ps) && IsPreferredOf(ps, cs) && DistinctNames(ps) && AllSound(cs) && proceeds >= 0.0
    ensures remaining == After1(cs, proceeds)
    ensures Paid(dist, ledger, ps, cs, proceeds)
  {
    hide SumReal, Paid, Flat, Ranked, IsPreferredOf, Descending, AllSound;
    remaining, dist, ledger := proceeds, map[], map[];
    var groups := GroupBySeniority(ps);
    NothingPaid(cs, proceeds);
    NoSum(ClaimOf());
    assert groups[..0] == [];
    for g := 0 to |groups|
      invariant remaining == Max0(proceeds - SumReal(ClaimOf(), Flat(groups[..g])))
      invariant Paid(dist, ledger, Flat(groups[..g]), cs, proceeds)
    {
      var done := Flat(groups[..g]);
      RankSums(groups, cs, g);
      RankIsUniform(groups, g);
      FlatSplit(groups, g);
      NamesPrefix(ps, |done + groups[g]|);
      assert ps[..|done + groups[g]|] == done + groups[g];
      remaining, dist, ledger := PayRank(groups[g], remaining, dist, ledger, done, cs, proceeds);
      SumConcat(ClaimOf(), done, groups[g]);
      ClaimsAreNonNegative(groups, cs, g);
    }
    assert groups[..|groups|] == groups;
    PreferredSum(Claims(), ps, cs);
    PreferredMembers(ps, cs);
    SumEqual(Claims(), ClaimOf(), ps);
  }

  lemma RankIsUniform(groups: seq<seq<ShareClass>>, g: nat)
    requires Ranked(groups) && g < |groups|
    ensures groups[g] != [] && forall c <- groups[g] :: c.seniority == groups[g][0].seniority
  {
    assert IsRank(groups[g]);
  }

  lemma NothingPaid(cs: seq<ShareClass>, proceeds: real)
    ensures Flat([]) == [] && Paid(map[], map[], [], cs, proceeds)
  {
  }

  lemma ClaimsAreNonNegative(groups: seq<seq<ShareClass>>, cs: seq<ShareClass>, g: nat)
    requires g < |groups| && IsPreferredOf(Flat(groups), cs) && AllSound(cs)
    ensures SumReal(ClaimOf(), groups[g]) >= 0.0
  {
    hide SumReal, Flat, IsPreferredOf;
    PreferredMembers(Flat(groups), cs);
    FlatSplit(groups, g);
    forall c <- groups[g] ensures ClaimOf()(c) >= 0.0 {
      assert c in Flat(groups) && c.IsSound();
      ClaimIsNonNegative(c);
    }
    SumNonNegative(ClaimOf(), groups[g]);
  }

  lemma ClaimIsNonNegative(c: ShareClass)
    requires c.IsSound()
    ensures c.Claim() >= 0.0
  {
  }

  // ----- tier 2

  method TotalCommonShares(common: seq<ShareClass>) returns (total: real)
    ensures total == SumReal(SharesOf(), common)
  {
    total := 0.0;
    for i := 0 to |common|
      invariant total == SumReal(SharesOf(), common[..i])
    {
      assert common[..i + 1] == common[..i] + [common[i]];
      SumRealSnoc(SharesOf(), common[..i], common[i]);
      total := total + common[i].shares as real;
    }
    assert common[..|common|] == common;
  }

  method TotalAsConvertedShares(preferred: seq<ShareClass>, common: seq<ShareClass>) returns (total: real)
    ensures total == SumReal(SharesOf(), common) + SumReal(ConvertedOf(), preferred)
  {
    var shares := TotalCommonShares(common);
    total := shares;
    for i := 0 to |preferred|
      invariant total == shares + SumReal(ConvertedOf(), preferred[..i])
    {
      assert preferred[..i + 1] == preferred[..i] + [preferred[i]];
      SumRealSnoc(ConvertedOf(), preferred[..i], preferred[i]);
      total := total + preferred[i].shares as real * preferred[i].ratio;
    }
    assert preferred[..|preferred|] == preferred;
  }

  lemma CommonSum(cs: seq<ShareClass>)
    ensures SumReal(SharesOf(), Filter(Common(), cs)) == SumReal(CommonShares(), cs)
  {
    SumFiltered(SharesOf(), CommonShares(), Common(), cs);
  }

  lemma ConvertedSum(ps: seq<ShareClass>, cs: seq<ShareClass>)
    requires IsPreferredOf(ps, cs)
    ensures SumReal(ConvertedOf(), ps) == SumReal(Converted(), cs)
  {
    hide SumReal, IsPreferredOf;
    PreferredSum(Converted(), ps, cs);
    PreferredMembers(ps, cs);
    SumEqual(ConvertedOf(), Converted(), ps);
  }

  /** The participation of the classes whose names are still to be subtracted. */
  function StillDue(dist: map<string, Distribution>, rest: set<string>): Weight {
    (c: ShareClass) => if c.name in rest && c.name in dist then dist[c.name].participation else 0.0
  }

  lemma {:induction false} DueByName(dist: map<string, Distribution>, cs: seq<ShareClass>, rest: set<string>, n: string)
    requires DistinctNames(cs) && n in Names(cs) && n in rest && n in dist
    ensures SumReal(StillDue(dist, rest), cs) == SumReal(StillDue(dist, rest - {n}), cs) + dist[n].participation
  {
    var k := |cs| - 1;
    NewName(cs, k);
    assert cs == cs[..k] + [cs[k]];
    NamesSnoc(cs[..k], cs[k]);
    if cs[k].name == n {
      forall c <- cs[..k] ensures c.name != n { assert c.name in Names(cs[..k]); }
      SumEqual(StillDue(dist, rest), StillDue(dist, rest - {n}), cs[..k]);
    } else {
      DueByName(dist, cs[..k], rest, n);
    }
  }

  /** Takes every participation payout of the table out of the pot, in whatever order the map yields them. */
  method SubtractParticipation(pot: real, dist: map<string, Distribution>, ghost paid: seq<ShareClass>)
    returns (remaining: real)
    requires dist.Keys == Names(paid) && DistinctNames(paid)
    ensures remaining == pot - SumReal(StillDue(dist, dist.Keys), paid)
  {
    hide SumReal, StillDue, Names, DistinctNames;
    remaining := pot;
    var rest := dist.Keys;
    while rest != {}
      invariant rest <= dist.Keys
      invariant remaining == pot - SumReal(StillDue(dist, dist.Keys), paid) + SumReal(StillDue(dist, rest), paid)
      decreases |rest|
    {
      var n :| n in rest;
      DueByName(dist, paid, rest, n);
      rest := rest - {n};
      remaining := remaining - dist[n].participation;
    }
    NothingDue(dist, paid);
  }

  lemma NothingDue(dist: map<string, Distribution>, paid: seq<ShareClass>)
    ensures SumReal(StillDue(dist, {}), paid) == 0.0
  {
    SumZero(StillDue(dist, {}), paid);
  }

  function Tier2Entry(cs: seq<ShareClass>, proceeds: real): ShareClass -> Distribution {
    (c: ShareClass) => Paid2(c, Tier2(cs, proceeds, c), Tier1(cs, proceeds, c))
  }

  /** What a class has been paid once tier 2 has reached the classes in `done`. */
  function PaidBy2(cs: seq<ShareClass>, proceeds: real, done: seq<ShareClass>): Weight {
    (c: ShareClass) => Tier1(cs, proceeds, c) + if c in done then Tier2(cs, proceeds, c) else 0.0
  }

  lemma LedgerUpdate(m: map<string, real>, ps: seq<ShareClass>, c: ShareClass, before: Weight, after: Weight)
    requires Ledger(m, ps, before) && DistinctNames(ps) && c in ps
    requires forall d <- ps :: d != c ==> after(d) == before(d)
    ensures c.name in m && m[c.name] == before(c)
    ensures Ledger(m[c.name := after(c)], ps, after)
  {
    forall d <- ps | d.name == c.name ensures d == c { NamesAreDistinct(ps, c, d); }
  }

  lemma NamesAreDistinct(ps: seq<ShareClass>, c: ShareClass, d: ShareClass)
    requires DistinctNames(ps) && c in ps && d in ps && c.name == d.name
    ensures c == d
  {
  }

  lemma SameLedger(m: map<string, real>, ps: seq<ShareClass>, v: Weight, w: Weight)
    requires Ledger(m, ps, v) && forall c <- ps :: v(c) == w(c)
    ensures Ledger(m, ps, w)
  {
  }

  lemma {:induction false} FilterKeepsNames(p: ShareClass -> bool, cs: seq<ShareClass>)
    requires DistinctNames(cs)
    ensures DistinctNames(Filter(p, cs))
  {
    if cs != [] {
      var n := |cs| - 1;
      NamesPrefix(cs, n);
      FilterKeepsNames(p, cs[..n]);
      FilterMembers(p, cs[..n]);
      forall c <- Filter(p, cs[..n]) ensures c.name != cs[n].name {
        var i :| 0 <= i < n && cs[i] == c;
      }
    }
  }

  lemma Tier2Is(cs: seq<ShareClass>, proceeds: real, c: ShareClass, pot: real, total: real, paid: real)
    requires pot == After1(cs, proceeds) && total == TotalConverted(cs) && paid == Tier1(cs, proceeds, c)
    requires pot > 0.0 && c.Participates()
    ensures Tier2(cs, proceeds, c) == Capped(c, pot * SafeDivide(c.AsConverted(), total), paid)
  {
  }

  /** One class's pro-rata share of the pot, up to its cap. */
  method ParticipationPayout(c: ShareClass, pot: real, totalAsConverted: real, alreadyPaid: real)
    returns (payout: real)
    ensures payout == Capped(c, pot * SafeDivide(c.AsConverted(), totalAsConverted), alreadyPaid)
  {
    var asConvertedShares := c.shares as real * c.ratio;
    payout := pot * SafeDivide(asConvertedShares, totalAsConverted);
    if c.cap > 0.0 {
      var maxParticipation := c.investment * c.cap - alreadyPaid;
      if maxParticipation < 0.0 {
        maxParticipation := 0.0;
      }
      if payout > maxParticipation {
        payout := maxParticipation;
      }
    }
  }

  /** Tier 2: the participating classes share what tier 1 left, each up to its cap. */
  method Participate(ps: seq<ShareClass>, common: seq<ShareClass>, pot: real, ledger: map<string, real>,
                     ghost cs: seq<ShareClass>, ghost proceeds: real)
    returns (remaining: real, dist: map<string, Distribution>, ledger': map<string, real>)
    requires IsPreferredOf(ps, cs) && common == Filter(Common(), cs) && DistinctNames(ps)
    requires pot == After1(cs, proceeds) && Ledger(ledger, ps, Tier1Of(cs, proceeds))
    ensures remaining == After2(cs, proceeds)
    ensures if After1(cs, proceeds) > 0.0 then Table(dist, Filter(Participating(), ps), Tier2Entry(cs, proceeds))
            else dist == map[]
    ensures Ledger(ledger', ps, PaidBy2(cs, proceeds, ps))
  {
    hide SumReal, Filter, IsPreferredOf, Ledger, Table, Tier1, After1, TotalConverted, DistinctNames, Paid2,
      SafeDivide, Capped, Names;
    remaining, dist, ledger' := pot, map[], ledger;
    PreferredMembers(ps, cs);
    FilterMembers(Participating(), ps);
    if remaining > 0.0 {
      var totalAsConverted := TotalAsConvertedShares(ps, common);
      CommonSum(cs);
      ConvertedSum(ps, cs);
      assert totalAsConverted == TotalConverted(cs) by { TotalConvertedIs(cs); }
      var qs := FilterClasses(Participating(), ps);
      FilterKeepsNames(Participating(), ps);
      SameLedger(ledger', ps, Tier1Of(cs, proceeds), PaidBy2(cs, proceeds, qs[..0]));
      EmptyTable(Tier2Entry(cs, proceeds));
      assert qs[..0] == [];
      for i := 0 to |qs|
        invariant remaining == pot
        invariant Table(dist, qs[..i], Tier2Entry(cs, proceeds))
        invariant Ledger(ledger', ps, PaidBy2(cs, proceeds, qs[..i]))
      {
        var c := qs[i];
        NewName(qs, i);
        NewMember(qs, i);
        LedgerUpdate(ledger', ps, c, PaidBy2(cs, proceeds, qs[..i]), PaidBy2(cs, proceeds, qs[..i + 1]));
        var payout := ParticipationPayout(c, remaining, totalAsConverted, PaidSoFar(ledger', c.name));
        assert c in ps && c.Participates();
        assert PaidSoFar(ledger', c.name) == Tier1(cs, proceeds, c);
        Tier2Is(cs, proceeds, c, remaining, totalAsConverted, PaidSoFar(ledger', c.name));
        assert qs[..i + 1] == qs[..i] + [c];
        TableSnoc(dist, qs[..i], c, Tier2Entry(cs, proceeds));
        ledger' := ledger'[c.name := PaidSoFar(ledger', c.name) + payout];
        dist := dist[c.name := Distribution(0.0, payout, 0.0, payout, SafeDivide(payout, c.shares as real),
                                            SafeDivide(ledger'[c.name], c.investment))];
        assert dist[c.name] == Tier2Entry(cs, proceeds)(c) by { Paid2Is(c, payout, Tier1(cs, proceeds, c)); }
      }
      assert qs[..|qs|] == qs;
      SameLedger(ledger', ps, PaidBy2(cs, proceeds, qs), PaidBy2(cs, proceeds, ps));
      TableKeys(dist, qs, Tier2Entry(cs, proceeds));
      remaining := SubtractParticipation(remaining, dist, qs);
      forall c <- qs ensures StillDue(dist, dist.Keys)(c) == Tier2(cs, proceeds, c) {
        Paid2Is(c, Tier2(cs, proceeds, c), Tier1(cs, proceeds, c));
      }
      SumEqual(StillDue(dist, dist.Keys), Tier2Of(cs, proceeds), qs);
      SumFiltered(Tier2Of(cs, proceeds), Tier2Of(cs, proceeds), Participating(), ps);
    } else {
      SameLedger(ledger', ps, Tier1Of(cs, proceeds), PaidBy2(cs, proceeds, ps));
      SumZero(Tier2Of(cs, proceeds), ps);
    }
    PreferredSum(Tier2Of(cs, proceeds), ps, cs);
  }

  lemma TotalConvertedIs(cs: seq<ShareClass>)
    ensures TotalConverted(cs) == SumReal(CommonShares(), cs) + SumReal(Converted(), cs)
  {
  }

  lemma Paid2Is(c: ShareClass, payout: real, already: real)
    ensures Paid2(c, payout, already) == Distribution(0.0, payout, 0.0, payout, SafeDivide(payout, c.shares as real),
                                                      SafeDivide(already + payout, c.investment))
  {
  }

  lemma EmptyTable(entry: ShareClass -> Distribution)
    ensures Table(map[], [], entry)
  {
  }

  lemma TableKeys(d: map<string, Distribution>, cs: seq<ShareClass>, entry: ShareClass -> Distribution)
    requires Table(d, cs, entry)
    ensures d.Keys == Names(cs)
    ensures forall c <- cs :: c.name in d && d[c.name] == entry(c)
  {
  }

  lemma NewMember(cs: seq<ShareClass>, i: nat)
    requires DistinctNames(cs) && i < |cs|
    ensures cs[i] !in cs[..i]
    ensures forall c :: c in cs[..i + 1] <==> c in cs[..i] || c == cs[i]
  {
    assert cs[..i + 1] == cs[..i] + [cs[i]];
  }

  // ----- tier 3

  function ConvertsOf(cs: seq<ShareClass>, proceeds: real): ShareClass -> bool {
    (c: ShareClass) => Converts(cs, proceeds, c)
  }

  function Tier3Entry(cs: seq<ShareClass>, proceeds: real): ShareClass -> Distribution {
    (c: ShareClass) => Paid3(c, PoolShare(cs, proceeds, c))
  }

  /** The tier 1 entries once tier 3 has decided for the classes in `done`. */
  function Entry1By(cs: seq<ShareClass>, proceeds: real, done: seq<ShareClass>): ShareClass -> Distribution {
    (c: ShareClass) =>
      if c in done then Entry1(cs, proceeds, c) else Paid1(c, Tier1(cs, proceeds, c))
  }

  /** What a class has been paid once tier 3 has decided for the classes in `done`. */
  function PaidBy3(cs: seq<ShareClass>, proceeds: real, done: seq<ShareClass>): Weight {
    (c: ShareClass) =>
      if c in done && Converts(cs, proceeds, c) then PoolShare(cs, proceeds, c)
      else Tier1(cs, proceeds, c) + Tier2(cs, proceeds, c)
  }

  /** remaining + every non-participating preference, as the pool the classes would share on conversion. */
  method ConversionPool(np: seq<ShareClass>, pot: real, ledger: map<string, real>, ghost paid: Weight)
    returns (pool: real)
    requires forall c <- np :: PaidSoFar(ledger, c.name) == paid(c)
    ensures pool == pot + SumReal(paid, np)
  {
    pool := pot;
    for i := 0 to |np|
      invariant pool == pot + SumReal(paid, np[..i])
    {
      assert np[..i + 1] == np[..i] + [np[i]];
      SumRealSnoc(paid, np[..i], np[i]);
      pool := pool + PaidSoFar(ledger, np[i].name);
    }
    assert np[..|np|] == np;
  }

  /** A weight that is zero except on convertible classes sums the same over them and over all classes. */
  lemma ConvertibleSum(v: Weight, w: Weight, ps: seq<ShareClass>, cs: seq<ShareClass>)
    requires IsPreferredOf(ps, cs)
    requires forall c <- cs :: w(c) == if c.MayConvert() then v(c) else 0.0
    ensures SumReal(v, Filter(NonParticipating(), ps)) == SumReal(w, cs)
  {
    hide SumReal, Filter, IsPreferredOf;
    PreferredMembers(ps, cs);
    SumFiltered(v, w, NonParticipating(), ps);
    PreferredSum(w, ps, cs);
  }

  lemma PoolIs(cs: seq<ShareClass>, proceeds: real)
    ensures Pool(cs, proceeds) == After2(cs, proceeds) + SumReal(ConvertiblePaid(cs, proceeds), cs)
    ensures PoolShares(cs) == SumReal(CommonShares(), cs) + SumReal(ConvertibleShares(), cs)
  {
  }

  lemma PoolShareIs(cs: seq<ShareClass>, proceeds: real, c: ShareClass, pool: real, shares: real)
    requires pool == Pool(cs, proceeds) && shares == PoolShares(cs)
    ensures SafeDivide(c.shares as real * c.ratio, shares) * pool == PoolShare(cs, proceeds, c)
  {
    hide Pool, PoolShares;
  }

  lemma TableUpdate(d: map<string, Distribution>, ps: seq<ShareClass>, c: ShareClass,
                    before: ShareClass -> Distribution, after: ShareClass -> Distribution)
    requires Table(d, ps, before) && DistinctNames(ps) && c in ps
    requires forall b <- ps :: b != c ==> after(b) == before(b)
    ensures c.name in d && d[c.name] == before(c)
    ensures Table(d[c.name := after(c)], ps, after)
    ensures before(c) == after(c) ==> Table(d, ps, after)
  {
    forall b <- ps | b.name == c.name ensures b == c { NamesAreDistinct(ps, c, b); }
  }

  lemma SameTable(d: map<string, Distribution>, ps: seq<ShareClass>, before: ShareClass -> Distribution,
                  after: ShareClass -> Distribution)
    requires Table(d, ps, before) && forall c <- ps :: before(c) == after(c)
    ensures Table(d, ps, after)
  {
  }

  lemma FilterNames(p: ShareClass -> bool, cs: seq<ShareClass>, c: ShareClass)
    requires c.name !in Names(cs)
    ensures c.name !in Names(Filter(p, cs))
  {
    FilterMembers(p, cs);
  }

  lemma NotYetConverting(cs: seq<ShareClass>, proceeds: real, c: ShareClass)
    requires !Converts(cs, proceeds, c)
    ensures Entry1(cs, proceeds, c) == Paid1(c, Tier1(cs, proceeds, c))
    ensures ConversionGain(cs, proceeds)(c) == 0.0
  {
  }

  /** Tier 3: each non-participating class converts if its share of the pool beats its preference. */
  method Convert(ps: seq<ShareClass>, common: seq<ShareClass>, pot: real, tier1: map<string, Distribution>,
                 ledger: map<string, real>, ghost cs: seq<ShareClass>, ghost proceeds: real)
    returns (remaining: real, tier1': map<string, Distribution>, dist: map<string, Distribution>,
             ledger': map<string, real>)
    requires IsPreferredOf(ps, cs) && common == Filter(Common(), cs) && DistinctNames(ps)
    requires pot == After2(cs, proceeds) && Ledger(ledger, ps, PaidBy2(cs, proceeds, ps))
    requires Table(tier1, ps, Tier1Entry(cs, proceeds))
    ensures remaining == After3(cs, proceeds)
    ensures Table(tier1', ps, Entry1By(cs, proceeds, ps))
    ensures Table(dist, Filter(ConvertsOf(cs, proceeds), Filter(NonParticipating(), ps)), Tier3Entry(cs, proceeds))
    ensures Ledger(ledger', ps, PaidBy3(cs, proceeds, ps))
  {
    hide SumReal, Filter, IsPreferredOf, Ledger, Table, Tier1, Tier2, After2, PoolShare, Pool, PoolShares, Converts,
      Entry1, Paid1, DistinctNames, Names, SafeDivide;
    remaining, tier1', dist, ledger' := pot, tier1, map[], ledger;
    ghost var np := Filter(NonParticipating(), ps);
    PreferredMembers(ps, cs);
    FilterMembers(NonParticipating(), ps);
    EmptyTable(Tier3Entry(cs, proceeds));
    NoneConvert(ConvertsOf(cs, proceeds), np);
    SameLedger(ledger', ps, PaidBy2(cs, proceeds, ps), PaidBy3(cs, proceeds, []));
    SameTable(tier1', ps, Tier1Entry(cs, proceeds), Entry1By(cs, proceeds, []));
    if remaining > 0.0 {
      remaining, tier1', dist, ledger' := DecideConversions(ps, common, pot, tier1', ledger', cs, proceeds);
    } else {
      forall c ensures !Converts(cs, proceeds, c) { NoneConvertFromEmptyPot(cs, proceeds, c); }
      forall c { NotYetConverting(cs, proceeds, c); }
      SumZero(ConversionGain(cs, proceeds), np);
      SameLedger(ledger', ps, PaidBy3(cs, proceeds, []), PaidBy3(cs, proceeds, ps));
      SameTable(tier1', ps, Entry1By(cs, proceeds, []), Entry1By(cs, proceeds, ps));
      FilterNothing(ConvertsOf(cs, proceeds), np);
    }
    forall c <- cs
      ensures ConversionGain(cs, proceeds)(c) == if c.MayConvert() then ConversionGain(cs, proceeds)(c) else 0.0
    {
      OnlyConvertiblesConvert(cs, proceeds, c);
    }
    ConvertibleSum(ConversionGain(cs, proceeds), ConversionGain(cs, proceeds), ps, cs);
  }

  lemma OnlyConvertiblesConvert(cs: seq<ShareClass>, proceeds: real, c: ShareClass)
    ensures Converts(cs, proceeds, c) ==> c.MayConvert()
  {
  }

  lemma NoneConvertFromEmptyPot(cs: seq<ShareClass>, proceeds: real, c: ShareClass)
    requires After2(cs, proceeds) <= 0.0
    ensures !Converts(cs, proceeds, c)
  {
  }

  lemma NoneConvert(p: ShareClass -> bool, cs: seq<ShareClass>)
    ensures cs[..0] == [] && Filter(p, []) == []
  {
  }

  lemma {:induction false} FilterNothing(p: ShareClass -> bool, cs: seq<ShareClass>)
    requires forall c <- cs :: !p(c)
    ensures Filter(p, cs) == []
  {
    if cs != [] {
      FilterNothing(p, cs[..|cs| - 1]);
    }
  }

  /** The decision for one class: it converts if its share of the pool beats what tier 1 paid it. */
  method DecideConversion(c: ShareClass, asConvertedPool: real, totalSharesInPool: real, pot: real,
                          tier1: map<string, Distribution>, tier3: map<string, Distribution>, ledger: map<string, real>,
                          ghost ps: seq<ShareClass>, ghost done: seq<ShareClass>, ghost cs: seq<ShareClass>,
                          ghost proceeds: real)
    returns (remaining: real, tier1': map<string, Distribution>, tier3': map<string, Distribution>,
             ledger': map<string, real>)
    requires asConvertedPool == Pool(cs, proceeds) && totalSharesInPool == PoolShares(cs)
    requires After2(cs, proceeds) > 0.0
    requires DistinctNames(ps) && c in ps && c.MayConvert() && c !in done && c.name !in Names(done)
    requires Table(tier1, ps, Entry1By(cs, proceeds, done)) && Ledger(ledger, ps, PaidBy3(cs, proceeds, done))
    requires Table(tier3, Filter(ConvertsOf(cs, proceeds), done), Tier3Entry(cs, proceeds))
    ensures remaining == pot + ConversionGain(cs, proceeds)(c)
    ensures Table(tier1', ps, Entry1By(cs, proceeds, done + [c]))
    ensures Ledger(ledger', ps, PaidBy3(cs, proceeds, done + [c]))
    ensures Table(tier3', Filter(ConvertsOf(cs, proceeds), done + [c]), Tier3Entry(cs, proceeds))
  {
    hide Filter, Ledger, Table, Tier1, Tier2, After2, PoolShare, Pool, PoolShares, Entry1, Paid1, Paid3,
      DistinctNames, Names, SafeDivide;
    remaining, tier1', tier3', ledger' := pot, tier1, tier3, ledger;
    FilterSnoc(ConvertsOf(cs, proceeds), done, c);
    FilterNames(ConvertsOf(cs, proceeds), done, c);
    LedgerUpdate(ledger, ps, c, PaidBy3(cs, proceeds, done), PaidBy3(cs, proceeds, done + [c]));
    TableUpdate(tier1, ps, c, Entry1By(cs, proceeds, done), Entry1By(cs, proceeds, done + [c]));
    ConvertibleHasNoTier2(cs, proceeds, c);
    var liqPayout := PaidSoFar(ledger, c.name);
    var asConvertedShares := c.shares as real * c.ratio;
    var conversionPayout := SafeDivide(asConvertedShares, totalSharesInPool) * asConvertedPool;
    PoolShareIs(cs, proceeds, c, asConvertedPool, totalSharesInPool);
    if conversionPayout > liqPayout {
      remaining := remaining + liqPayout;
      remaining := remaining - conversionPayout;
      ledger' := ledger'[c.name := conversionPayout];
      if c.name in tier1' {
        tier1' := tier1'[c.name := Zeroed(tier1'[c.name])];
      }
      ZeroedIs(cs, proceeds, c);
      Paid3Is(c, conversionPayout);
      TableSnoc(tier3, Filter(ConvertsOf(cs, proceeds), done), c, Tier3Entry(cs, proceeds));
      tier3' := tier3[c.name := Distribution(0.0, 0.0, conversionPayout, conversionPayout,
                                             SafeDivide(conversionPayout, c.shares as real),
                                             SafeDivide(conversionPayout, c.investment))];
    } else {
      NotYetConverting(cs, proceeds, c);
      assert Filter(ConvertsOf(cs, proceeds), done) + [] == Filter(ConvertsOf(cs, proceeds), done);
      SameLedger(ledger, ps, PaidBy3(cs, proceeds, done), PaidBy3(cs, proceeds, done + [c]));
    }
  }

  method DecideConversions(ps: seq<ShareClass>, common: seq<ShareClass>, pot: real, tier1: map<string, Distribution>,
                           ledger: map<string, real>, ghost cs: seq<ShareClass>, ghost proceeds: real)
    returns (remaining: real, tier1': map<string, Distribution>, dist: map<string, Distribution>,
             ledger': map<string, real>)
    requires IsPreferredOf(ps, cs) && common == Filter(Common(), cs) && DistinctNames(ps)
    requires pot == After2(cs, proceeds) && pot > 0.0
    requires Ledger(ledger, ps, PaidBy3(cs, proceeds, [])) && Table(tier1, ps, Entry1By(cs, proceeds, []))
    ensures remaining == pot + SumReal(ConversionGain(cs, proceeds), Filter(NonParticipating(), ps))
    ensures Table(tier1', ps, Entry1By(cs, proceeds, ps))
    ensures Table(dist, Filter(ConvertsOf(cs, proceeds), Filter(NonParticipating(), ps)), Tier3Entry(cs, proceeds))
    ensures Ledger(ledger', ps, PaidBy3(cs, proceeds, ps))
  {
    hide SumReal, Filter, IsPreferredOf, Ledger, Table, Tier1, Tier2, After2, PoolShare, Pool, PoolShares, Entry1,
      Paid1, Paid3, DistinctNames, Names, SafeDivide;
    remaining, tier1', dist, ledger' := pot, tier1, map[], ledger;
    var np := FilterClasses(NonParticipating(), ps);
    PreferredMembers(ps, cs);
    FilterMembers(NonParticipating(), ps);
    FilterKeepsNames(NonParticipating(), ps);
    forall c <- np ensures PaidSoFar(ledger, c.name) == Tier1Of(cs, proceeds)(c) {
      ConvertibleIsPaidItsPreference(ledger, ps, cs, proceeds, c);
    }
    var asConvertedPool := ConversionPool(np, pot, ledger, Tier1Of(cs, proceeds));
    ConvertibleSum(Tier1Of(cs, proceeds), ConvertiblePaid(cs, proceeds), ps, cs);
    var totalSharesInPool := TotalAsConvertedShares(np, common);
    ConvertibleSum(ConvertedOf(), ConvertibleShares(), ps, cs);
    CommonSum(cs);
    PoolIs(cs, proceeds);
    EmptyTable(Tier3Entry(cs, proceeds));
    NoneConvert(ConvertsOf(cs, proceeds), np);
    NoSum(ConversionGain(cs, proceeds));
    for i := 0 to |np|
      invariant remaining == pot + SumReal(ConversionGain(cs, proceeds), np[..i])
      invariant Table(tier1', ps, Entry1By(cs, proceeds, np[..i]))
      invariant Table(dist, Filter(ConvertsOf(cs, proceeds), np[..i]), Tier3Entry(cs, proceeds))
      invariant Ledger(ledger', ps, PaidBy3(cs, proceeds, np[..i]))
    {
      NewName(np, i);
      assert np[..i + 1] == np[..i] + [np[i]];
      SumRealSnoc(ConversionGain(cs, proceeds), np[..i], np[i]);
      remaining, tier1', dist, ledger' := DecideConversion(
        np[i], asConvertedPool, totalSharesInPool, remaining, tier1', dist, ledger', ps, np[..i], cs, proceeds);
    }
    assert np[..|np|] == np;
    forall c <- ps | c !in np { ParticipantKeepsEntry(cs, proceeds, c); }
    SameLedger(ledger', ps, PaidBy3(cs, proceeds, np), PaidBy3(cs, proceeds, ps));
    SameTable(tier1', ps, Entry1By(cs, proceeds, np), Entry1By(cs, proceeds, ps));
  }

  /** A tier 1 entry with every payout field set to zero. */
  function Zeroed(d: Distribution): Distribution {
    d.(liquidation := 0.0, total := 0.0, perShare := 0.0, multiple := 0.0)
  }

  lemma ZeroedIs(cs: seq<ShareClass>, proceeds: real, c: ShareClass)
    requires Converts(cs, proceeds, c)
    ensures Zeroed(Paid1(c, Tier1(cs, proceeds, c))) == Entry1(cs, proceeds, c)
  {
  }

  lemma Paid3Is(c: ShareClass, payout: real)
    ensures Paid3(c, payout) == Distribution(0.0, 0.0, payout, payout, SafeDivide(payout, c.shares as real),
                                             SafeDivide(payout, c.investment))
  {
  }

  lemma ConvertibleHasNoTier2(cs: seq<ShareClass>, proceeds: real, c: ShareClass)
    requires !c.participating
    ensures Tier2(cs, proceeds, c) == 0.0
  {
  }

  lemma ParticipantKeepsEntry(cs: seq<ShareClass>, proceeds: real, c: ShareClass)
    requires c.participating
    ensures !Converts(cs, proceeds, c)
    ensures Entry1(cs, proceeds, c) == Paid1(c, Tier1(cs, proceeds, c))
  {
  }

  lemma ConvertibleIsPaidItsPreference(ledger: map<string, real>, ps: seq<ShareClass>, cs: seq<ShareClass>,
                                       proceeds: real, c: ShareClass)
    requires Ledger(ledger, ps, PaidBy3(cs, proceeds, [])) && c in ps && !c.participating
    ensures PaidSoFar(ledger, c.name) == Tier1(cs, proceeds, c)
  {
    hide Tier1, Tier2, Converts;
    ConvertibleHasNoTier2(cs, proceeds, c);
    assert c.name in Names(ps);
  }

  // ----- tier 4

  function Tier4Entry(cs: seq<ShareClass>, proceeds: real): ShareClass -> Distribution {
    (c: ShareClass) => Paid4(c, Tier4(cs, proceeds, c))
  }

  /** What every class has been paid once tier 4 has run. */
  function PaidBy4(cs: seq<ShareClass>, proceeds: real, ps: seq<ShareClass>): Weight {
    (c: ShareClass) =>
      if !c.IsPreferred() then Tier4(cs, proceeds, c)
      else if c in ps && Converts(cs, proceeds, c) then PoolShare(cs, proceeds, c)
      else Tier1(cs, proceeds, c) + Tier2(cs, proceeds, c)
  }

  lemma Tier4Is(cs: seq<ShareClass>, proceeds: real, ps: seq<ShareClass>, c: ShareClass, pot: real, total: real,
                payout: real)
    requires pot == After3(cs, proceeds) && total == SumReal(CommonShares(), cs) && pot > 0.0 && total > 0.0
    requires !c.IsPreferred() && payout == pot * SafeDivide(c.shares as real, total)
    ensures PaidBy4(cs, proceeds, ps)(c) == payout
    ensures Tier4Entry(cs, proceeds)(c) ==
            Distribution(0.0, 0.0, 0.0, payout, SafeDivide(payout, c.shares as real), SafeDivide(payout, c.investment))
  {
  }

  lemma PreferredPaid(cs: seq<ShareClass>, proceeds: real, ps: seq<ShareClass>)
    ensures forall c: ShareClass :: c.IsPreferred() ==> PaidBy4(cs, proceeds, ps)(c) == PaidBy3(cs, proceeds, ps)(c)
  {
  }

  /** Tier 4: common stock shares what is left, pro rata; without common shares the rest stays in the pot. */
  method ShareCommon(ps: seq<ShareClass>, common: seq<ShareClass>, pot: real, ledger: map<string, real>,
                     ghost cs: seq<ShareClass>, ghost proceeds: real)
    returns (remaining: real, dist: map<string, Distribution>, ghost ledger': map<string, real>)
    requires IsPreferredOf(ps, cs) && common == Filter(Common(), cs) && DistinctNames(ps + common)
    requires pot == After3(cs, proceeds) && Ledger(ledger, ps, PaidBy3(cs, proceeds, ps))
    ensures remaining == Remainder(cs, proceeds)
    ensures if PaysCommon(cs, proceeds) then Table(dist, common, Tier4Entry(cs, proceeds)) else dist == map[]
    ensures Ledger(ledger', if PaysCommon(cs, proceeds) then ps + common else ps, PaidBy4(cs, proceeds, ps))
  {
    hide SumReal, Filter, IsPreferredOf, Ledger, Table, After3, DistinctNames, Names, SafeDivide, Tier4Entry, PaidBy4;
    remaining, dist, ledger' := pot, map[], ledger;
    PreferredMembers(ps, cs);
    FilterMembers(Common(), cs);
    PreferredPaid(cs, proceeds, ps);
    SameLedger(ledger, ps, PaidBy3(cs, proceeds, ps), PaidBy4(cs, proceeds, ps));
    if remaining > 0.0 {
      var totalCommon := TotalCommonShares(common);
      CommonSum(cs);
      if totalCommon > 0.0 {
        EmptyTable(Tier4Entry(cs, proceeds));
        var cumulative := ledger;
        assert common[..0] == [] && ps + [] == ps;
        for i := 0 to |common|
          invariant remaining == pot
          invariant Table(dist, common[..i], Tier4Entry(cs, proceeds))
          invariant Ledger(cumulative, ps + common[..i], PaidBy4(cs, proceeds, ps))
        {
          var c := common[i];
          assert c in common && !c.IsPreferred();
          assert common[..i + 1] == common[..i] + [c];
          assert ps + common[..i + 1] == (ps + common[..i]) + [c];
          CommonIsNew(ps, common, i);
          NotPaidYet(cumulative, ps + common[..i], c, PaidBy4(cs, proceeds, ps));
          var share := SafeDivide(c.shares as real, totalCommon);
          var payout := remaining * share;
          Tier4Is(cs, proceeds, ps, c, remaining, totalCommon, payout);
          TableSnoc(dist, common[..i], c, Tier4Entry(cs, proceeds));
          LedgerSnoc(cumulative, ps + common[..i], c, PaidBy4(cs, proceeds, ps));
          cumulative := cumulative[c.name := PaidSoFar(cumulative, c.name) + payout];
          assert cumulative[c.name] == payout;
          dist := dist[c.name := Distribution(0.0, 0.0, 0.0, payout, SafeDivide(payout, c.shares as real),
                                              SafeDivide(cumulative[c.name], c.investment))];
        }
        assert common[..|common|] == common;
        ledger' := cumulative;
        remaining := 0.0;
      }
    }
  }

  lemma CommonIsNew(ps: seq<ShareClass>, common: seq<ShareClass>, i: nat)
    requires DistinctNames(ps + common) && i < |common|
    ensures common[i].name !in Names(ps + common[..i]) && common[i].name !in Names(common[..i])
  {
    NewName(ps + common, |ps| + i);
    assert (ps + common)[..|ps| + i] == ps + common[..i];
  }

  // ----- the whole calculation

  datatype Tier = Tier(name: string, distributions: map<string, Distribution>)

  datatype WaterfallResult = WaterfallResult(totalDistributed: real, remainder: real, tiers: seq<Tier>)

  datatype Outcome = Done(result: WaterfallResult) | NegativeProceeds | NoClasses

  /** Exactly the classes that satisfy p have an entry, under their own names. */
  ghost predicate TableOf(d: map<string, Distribution>, cs: seq<ShareClass>, p: ShareClass -> bool,
                          entry: ShareClass -> Distribution)
  {
    && (forall c <- cs :: p(c) ==> c.name in d && d[c.name] == entry(c))
    && (forall n <- d.Keys :: exists c <- cs :: p(c) && c.name == n)
  }

  function Entry1Of(cs: seq<ShareClass>, proceeds: real): ShareClass -> Distribution {
    (c: ShareClass) => Entry1(cs, proceeds, c)
  }

  function Tier2Receives(cs: seq<ShareClass>, proceeds: real): ShareClass -> bool {
    (c: ShareClass) => c.Participates() && After1(cs, proceeds) > 0.0
  }

  function Tier4Receives(cs: seq<ShareClass>, proceeds: real): ShareClass -> bool {
    (c: ShareClass) => !c.IsPreferred() && PaysCommon(cs, proceeds)
  }

  /** The result of a waterfall over normalised classes: the four tables and the remainder. */
  ghost predicate IsWaterfall(r: WaterfallResult, cs: seq<ShareClass>, proceeds: real) {
    && r.remainder == Remainder(cs, proceeds)
    && r.totalDistributed == proceeds - r.remainder
    && |r.tiers| == 4
    && r.tiers[0].name == "Liquidation Preferences" && r.tiers[1].name == "Participation"
    && r.tiers[2].name == "As-Converted Comparison" && r.tiers[3].name == "Common Distribution"
    && TableOf(r.tiers[0].distributions, cs, Preferred(), Entry1Of(cs, proceeds))
    && TableOf(r.tiers[1].distributions, cs, Tier2Receives(cs, proceeds), Tier2Entry(cs, proceeds))
    && TableOf(r.tiers[2].distributions, cs, ConvertsOf(cs, proceeds), Tier3Entry(cs, proceeds))
    && TableOf(r.tiers[3].distributions, cs, Tier4Receives(cs, proceeds), Tier4Entry(cs, proceeds))
  }

  /** A table over a listing of the receiving classes is a table of all the classes. */
  lemma TableOfListing(d: map<string, Distribution>, qs: seq<ShareClass>, cs: seq<ShareClass>, p: ShareClass -> bool,
                       entry: ShareClass -> Distribution, entry': ShareClass -> Distribution)
    requires Table(d, qs, entry) && forall c :: c in qs <==> c in cs && p(c)
    requires forall c <- qs :: entry(c) == entry'(c)
    ensures TableOf(d, cs, p, entry')
  {
    forall n <- d.Keys ensures exists c <- cs :: p(c) && c.name == n {
      assert n in Names(qs);
      var c :| c in qs && c.name == n;
    }
  }

  lemma EmptyTableOf(cs: seq<ShareClass>, p: ShareClass -> bool, entry: ShareClass -> Distribution)
    requires forall c <- cs :: !p(c)
    ensures TableOf(map[], cs, p, entry)
  {
  }

  lemma {:induction false} DistinctOnce(cs: seq<ShareClass>, c: ShareClass)
    requires DistinctNames(cs)
    ensures multiset(cs)[c] <= 1
  {
    if cs != [] {
      var n := |cs| - 1;
      NamesPrefix(cs, n);
      DistinctOnce(cs[..n], c);
      NewMember(cs, n);
      assert cs == cs[..n] + [cs[n]];
      if cs[n] == c { assert c !in multiset(cs[..n]); }
    }
  }

  lemma DistinctReordered(cs: seq<ShareClass>, ds: seq<ShareClass>)
    requires DistinctNames(cs) && multiset(cs) == multiset(ds)
    ensures DistinctNames(ds)
  {
    forall i, j | 0 <= i < j < |ds| ensures ds[i].name != ds[j].name {
      if ds[i].name == ds[j].name {
        assert ds[i] in multiset(cs) && ds[j] in multiset(cs);
        NamesAreDistinct(cs, ds[i], ds[j]);
        DistinctOnce(cs, ds[i]);
        SameTwice(ds, i, j);
      }
    }
  }

  lemma SameTwice(ds: seq<ShareClass>, i: nat, j: nat)
    requires i < j < |ds| && ds[i] == ds[j]
    ensures multiset(ds)[ds[i]] >= 2
  {
    assert ds == ds[..j] + [ds[j]] + ds[j + 1..];
    assert ds[..j][i] in multiset(ds[..j]);
  }

  /** Splitting off and sorting the preferred classes keeps every class and every name. */
  lemma SortedSplit(cs: seq<ShareClass>, ps: seq<ShareClass>)
    requires DistinctNames(cs) && IsPreferredOf(ps, cs)
    ensures DistinctNames(ps + Filter(Common(), cs)) && DistinctNames(ps)
  {
    hide Filter;
    var fs, common := Filter(Preferred(), cs), Filter(Common(), cs);
    FilterSplits(Preferred(), Common(), cs);
    assert multiset(ps + common) == multiset(fs) + multiset(common);
    DistinctReordered(cs, ps + common);
    NamesPrefix(ps + common, |ps|);
    assert (ps + common)[..|ps|] == ps;
  }

  /** The waterfall, on the array of classes it normalises in place. */
  method Calculate(proceeds: real, classes: array<ShareClass>) returns (r: Outcome, ghost ledger: map<string, real>)
    requires DistinctNames(classes[..]) && AllSound(classes[..])
    modifies classes
    ensures proceeds < 0.0 ==> r == NegativeProceeds && classes[..] == old(classes[..])
    ensures proceeds >= 0.0 && classes.Length == 0 ==> r == NoClasses
    ensures proceeds >= 0.0 && classes.Length > 0 ==>
      && r.Done?
      && (forall i :: 0 <= i < classes.Length ==>
            classes[i] == if old(classes[i]).ratio <= 0.0 then old(classes[i]).(ratio := 1.0) else old(classes[i]))
      && IsWaterfall(r.result, classes[..], proceeds)
      && (forall c <- classes[..] :: PaidSoFar(ledger, c.name) == TotalPaid(classes[..], proceeds, c))
  {
    hide DistinctNames, AllSound;
    ledger := map[];
    if proceeds < 0.0 {
      return NegativeProceeds, ledger;
    }
    if classes.Length == 0 {
      return NoClasses, ledger;
    }
    for i := 0 to classes.Length
      invariant forall k :: 0 <= k < classes.Length ==>
        classes[k] == if k < i then old(classes[k]).Normalized() else old(classes[k])
    {
      if classes[i].ratio <= 0.0 {
        classes[i] := classes[i].(ratio := 1.0);
      }
    }
    NormalizedIsSound(old(classes[..]), classes[..]);
    var result;
    result, ledger := RunTiers(proceeds, classes[..]);
    return Done(result), ledger;
  }

  lemma NormalizedIsSound(before: seq<ShareClass>, after: seq<ShareClass>)
    requires DistinctNames(before) && AllSound(before) && |before| == |after|
    requires forall i :: 0 <= i < |before| ==> after[i] == before[i].Normalized()
    ensures DistinctNames(after) && AllSound(after)
  {
    forall i | 0 <= i < |after| ensures after[i].IsSound() && after[i].name == before[i].name {
      assert before[i] in before;
    }
  }

  /** Everything a class receives over the four tiers: a conversion replaces its preference. */
  function TotalPaid(cs: seq<ShareClass>, proceeds: real, c: ShareClass): real {
    if !c.IsPreferred() then Tier4(cs, proceeds, c)
    else if Converts(cs, proceeds, c) then PoolShare(cs, proceeds, c)
    else Tier1(cs, proceeds, c) + Tier2(cs, proceeds, c)
  }

  method RunTiers(proceeds: real, cs: seq<ShareClass>)
    returns (result: WaterfallResult, ghost ledger: map<string, real>)
    requires DistinctNames(cs) && AllSound(cs) && proceeds >= 0.0
    ensures IsWaterfall(result, cs, proceeds)
    ensures forall c <- cs :: PaidSoFar(ledger, c.name) == TotalPaid(cs, proceeds, c)
  {
    hide Filter, DistinctNames, AllSound, Descending, Table, Ledger, TableOf, Tier1, Tier2, Tier4, PoolShare,
      Converts, Entry1, After1, After2, After3, Paid1, Paid2, Paid3, Paid4, PaysCommon, Remainder, IsPreferredOf;
    var preferred, common := SplitClasses(cs);
    var ps := SortBySeniority(preferred);
    SortedIsPreferred(ps, cs);
    SortedSplit(cs, ps);
    var remaining, tier1, cumulative := PayPreferences(ps, proceeds, cs);
    var tier2, tier3, tier4;
    remaining, tier2, cumulative := Participate(ps, common, remaining, cumulative, cs, proceeds);
    remaining, tier1, tier3, cumulative := Convert(ps, common, remaining, tier1, cumulative, cs, proceeds);
    remaining, tier4, ledger := ShareCommon(ps, common, remaining, cumulative, cs, proceeds);
    TablesAreComplete(tier1, tier2, tier3, tier4, ps, cs, proceeds);
    LedgerIsComplete(ledger, ps, cs, proceeds);
    result := WaterfallResult(proceeds - remaining, remaining, [
      Tier("Liquidation Preferences", tier1), Tier("Participation", tier2),
      Tier("As-Converted Comparison", tier3), Tier("Common Distribution", tier4)]);
  }

  lemma SortedIsPreferred(ps: seq<ShareClass>, cs: seq<ShareClass>)
    requires multiset(ps) == multiset(Filter(Preferred(), cs))
    ensures IsPreferredOf(ps, cs)
  {
  }

  lemma TablesAreComplete(tier1: map<string, Distribution>, tier2: map<string, Distribution>,
                          tier3: map<string, Distribution>, tier4: map<string, Distribution>,
                          ps: seq<ShareClass>, cs: seq<ShareClass>, proceeds: real)
    requires IsPreferredOf(ps, cs)
    requires Table(tier1, ps, Entry1By(cs, proceeds, ps))
    requires if After1(cs, proceeds) > 0.0 then Table(tier2, Filter(Participating(), ps), Tier2Entry(cs, proceeds))
             else tier2 == map[]
    requires Table(tier3, Filter(ConvertsOf(cs, proceeds), Filter(NonParticipating(), ps)), Tier3Entry(cs, proceeds))
    requires if PaysCommon(cs, proceeds) then Table(tier4, Filter(Common(), cs), Tier4Entry(cs, proceeds))
             else tier4 == map[]
    ensures TableOf(tier1, cs, Preferred(), Entry1Of(cs, proceeds))
    ensures TableOf(tier2, cs, Tier2Receives(cs, proceeds), Tier2Entry(cs, proceeds))
    ensures TableOf(tier3, cs, ConvertsOf(cs, proceeds), Tier3Entry(cs, proceeds))
    ensures TableOf(tier4, cs, Tier4Receives(cs, proceeds), Tier4Entry(cs, proceeds))
  {
    hide Filter, Table, TableOf, Tier1, Tier2, Tier4, PoolShare, Converts, Entry1, After1, After2, After3, Paid1,
      Paid2, Paid3, Paid4, PaysCommon, IsPreferredOf;
    PreferredMembers(ps, cs);
    FilterMembers(Participating(), ps);
    FilterMembers(NonParticipating(), ps);
    FilterMembers(ConvertsOf(cs, proceeds), Filter(NonParticipating(), ps));
    FilterMembers(Common(), cs);
    forall c ensures Converts(cs, proceeds, c) ==> c.MayConvert() { OnlyConvertiblesConvert(cs, proceeds, c); }
    TableOfListing(tier1, ps, cs, Preferred(), Entry1By(cs, proceeds, ps), Entry1Of(cs, proceeds));
    if After1(cs, proceeds) > 0.0 {
      TableOfListing(tier2, Filter(Participating(), ps), cs, Tier2Receives(cs, proceeds), Tier2Entry(cs, proceeds),
                     Tier2Entry(cs, proceeds));
    } else {
      EmptyTableOf(cs, Tier2Receives(cs, proceeds), Tier2Entry(cs, proceeds));
    }
    TableOfListing(tier3, Filter(ConvertsOf(cs, proceeds), Filter(NonParticipating(), ps)), cs,
                   ConvertsOf(cs, proceeds), Tier3Entry(cs, proceeds), Tier3Entry(cs, proceeds));
    if PaysCommon(cs, proceeds) {
      TableOfListing(tier4, Filter(Common(), cs), cs, Tier4Receives(cs, proceeds), Tier4Entry(cs, proceeds),
                     Tier4Entry(cs, proceeds));
    } else {
      EmptyTableOf(cs, Tier4Receives(cs, proceeds), Tier4Entry(cs, proceeds));
    }
  }

  lemma LedgerIsComplete(m: map<string, real>, ps: seq<ShareClass>, cs: seq<ShareClass>, proceeds: real)
    requires IsPreferredOf(ps, cs) && DistinctNames(ps + Filter(Common(), cs))
    requires Ledger(m, if PaysCommon(cs, proceeds) then ps + Filter(Common(), cs) else ps, PaidBy4(cs, proceeds, ps))
    ensures forall c <- cs :: PaidSoFar(m, c.name) == TotalPaid(cs, proceeds, c)
  {
    hide Filter, Ledger, Names, PaysCommon, IsPreferredOf, DistinctNames, PaidBy4, TotalPaid;
    var common := Filter(Common(), cs);
    PreferredMembers(ps, cs);
    FilterMembers(Common(), cs);
    forall c <- cs ensures PaidSoFar(m, c.name) == TotalPaid(cs, proceeds, c) {
      if c in ps || PaysCommon(cs, proceeds) {
        LedgerHolds(m, if PaysCommon(cs, proceeds) then ps + common else ps, PaidBy4(cs, proceeds, ps), c);
        PaidInAll(cs, proceeds, ps, c);
      } else {
        var i :| 0 <= i < |common| && common[i] == c;
        CommonIsNew(ps, common, i);
        NotInPrefix(ps, common[..i], c.name);
        NotPaidYet(m, ps, c, PaidBy4(cs, proceeds, ps));
        CommonUnpaid(cs, proceeds, c);
      }
    }
  }

  lemma PaidInAll(cs: seq<ShareClass>, proceeds: real, ps: seq<ShareClass>, c: ShareClass)
    requires c.IsPreferred() ==> c in ps
    ensures PaidBy4(cs, proceeds, ps)(c) == TotalPaid(cs, proceeds, c)
  {
  }

  lemma CommonUnpaid(cs: seq<ShareClass>, proceeds: real, c: ShareClass)
    requires !c.IsPreferred() && !PaysCommon(cs, proceeds)
    ensures TotalPaid(cs, proceeds, c) == 0.0
  {
  }

  lemma NotInPrefix(ps: seq<ShareClass>, qs: seq<ShareClass>, n: string)
    requires n !in Names(ps + qs)
    ensures n !in Names(ps)
  {
    forall c <- ps ensures c.name != n { assert c in ps + qs; }
  }

  lemma LedgerHolds(m: map<string, real>, cs: seq<ShareClass>, paid: Weight, c: ShareClass)
    requires Ledger(m, cs, paid) && c in cs
    ensures PaidSoFar(m, c.name) == paid(c)
  {
  }
}
