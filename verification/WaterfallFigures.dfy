/** The waterfall in the classes' own figures: every payout and table entry by investment, multiple, cap and shares. */
module WaterfallFigures {
  import opened GoBasics
  import opened Arithmetic
  import opened Waterfall
  import opened WaterfallTiers
  import opened WaterfallLists
  import opened WaterfallEngine
  import opened WaterfallTheorems

  // ----- what is added up

  function PreferenceAbove(rank: int): Weight {
    (c: ShareClass) => if c.seniority > rank then c.investment * c.multiple else 0.0
  }

  function PreferenceAt(rank: int): Weight {
    (c: ShareClass) => if c.seniority == rank then c.investment * c.multiple else 0.0
  }

  function AllConverted(): Weight {
    (c: ShareClass) => if c.seniority > 0 then c.shares as real * c.ratio else c.shares as real
  }

  function CommonStock(): Weight {
    (c: ShareClass) => if c.seniority > 0 then 0.0 else c.shares as real
  }

  /** The shares of the conversion pool: common stock, and the non-participating classes as converted. */
  function PoolStock(): Weight {
    (c: ShareClass) =>
      if c.seniority > 0 && c.participating then 0.0
      else if c.seniority > 0 then c.shares as real * c.ratio
      else c.shares as real
  }

  /** What the non-participating classes hold after tier 1, which the conversion pool returns. */
  function Returned(cs: seq<ShareClass>, proceeds: real): Weight {
    (c: ShareClass) => if c.seniority > 0 && !c.participating then Tier1(cs, proceeds, c) else 0.0
  }

  /** x is to the pot as mine is to all. */
  predicate IsShareOf(x: real, pot: real, mine: real, all: real) {
    x * all == pot * mine
  }

  function Max(x: real, y: real): real {
    if x <= y then y else x
  }

  lemma ShareIs(pot: real, mine: real, all: real) returns (x: real)
    requires 0.0 <= mine <= all
    ensures x == pot * SafeDivide(mine, all) && IsShareOf(x, pot, mine, all)
    ensures pot >= 0.0 ==> x >= 0.0
    ensures pot == 0.0 ==> x == 0.0
  {
    x := pot * SafeDivide(mine, all);
    if all != 0.0 {
      var q := mine / all;
      assert q * all == mine;
      assert (pot * q) * all == pot * (q * all);
    }
  }

  lemma OnlyShare(x: real, y: real, pot: real, mine: real, all: real)
    requires IsShareOf(x, pot, mine, all) && IsShareOf(y, pot, mine, all) && all > 0.0
    ensures x == y
  {
    assert (x - y) * all == 0.0;
  }

  // ----- tier 1

  /** A class is paid investment x multiple if the proceeds reach that far down, nothing if they do not reach its
        rank, and in the rank they run out in its part of what is left. */
  lemma PreferenceInFigures(cs: seq<ShareClass>, proceeds: real, c: ShareClass)
    requires AllSound(cs) && c in cs
    ensures var above, rank := SumReal(PreferenceAbove(c.seniority), cs), SumReal(PreferenceAt(c.seniority), cs);
      && (proceeds >= above + rank ==> Tier1(cs, proceeds, c) == c.investment * c.multiple)
      && (proceeds <= above && 0.0 < rank ==> Tier1(cs, proceeds, c) == 0.0)
      && (above < proceeds < above + rank ==>
            IsShareOf(Tier1(cs, proceeds, c), proceeds - above, c.investment * c.multiple, rank))
  {
    hide *;
    PreferenceSums(cs, c.seniority);
    ClaimSums(cs, c.seniority);
    ClaimIs(cs, c);
    var excess, rank := proceeds - SumReal(PreferenceAbove(c.seniority), cs), SumReal(PreferenceAt(c.seniority), cs);
    var left := Max0(excess);
    Max0Is(excess);
    var x := ShareIs(left, c.Claim(), rank);
    Tier1Is(cs, proceeds, c, left, rank, x);
  }

  lemma PreferenceSums(cs: seq<ShareClass>, rank: int)
    ensures SumReal(PreferenceAbove(rank), cs) == SumReal(ClaimsAbove(rank), cs)
    ensures SumReal(PreferenceAt(rank), cs) == SumReal(ClaimsAt(rank), cs)
  {
    hide SumReal;
    SumEqual(PreferenceAbove(rank), ClaimsAbove(rank), cs);
    SumEqual(PreferenceAt(rank), ClaimsAt(rank), cs);
  }

  lemma ClaimIs(cs: seq<ShareClass>, c: ShareClass)
    requires AllSound(cs) && c in cs
    ensures c.Claim() == c.investment * c.multiple >= 0.0
  {
  }

  lemma Tier1Is(cs: seq<ShareClass>, proceeds: real, c: ShareClass, left: real, rank: real, x: real)
    requires left == Max0(proceeds - SumReal(ClaimsAbove(c.seniority), cs))
    requires rank == SumReal(ClaimsAt(c.seniority), cs)
    requires x == left * SafeDivide(c.Claim(), rank)
    ensures Tier1(cs, proceeds, c) == if left >= rank then c.Claim() else x
  {
    hide SumReal, SafeDivide;
  }

  lemma Max0Is(x: real)
    ensures Max0(x) == Max(x, 0.0)
    ensures Max(x, 0.0) == if x <= 0.0 then 0.0 else x
  {
  }

  /** Tier 1 leaves what the proceeds exceed the preferences by. */
  lemma LeftoverInFigures(cs: seq<ShareClass>, proceeds: real)
    ensures After1(cs, proceeds) == Max(proceeds - SumReal(PreferenceAbove(0), cs), 0.0)
  {
    SumEqual(PreferenceAbove(0), Claims(), cs);
    hide SumReal;
  }

  // ----- tier 2

  lemma ConvertedInFigures(cs: seq<ShareClass>)
    ensures SumReal(AllConverted(), cs) == TotalConverted(cs)
    ensures SumReal(PoolStock(), cs) == PoolShares(cs)
    ensures SumReal(CommonStock(), cs) == SumReal(CommonShares(), cs)
  {
    SumAdds(CommonShares(), Converted(), AllConverted(), cs);
    SumAdds(CommonShares(), ConvertibleShares(), PoolStock(), cs);
    SumEqual(CommonStock(), CommonShares(), cs);
  }

  lemma WeightsOf(c: ShareClass)
    requires c.AsConverted() >= 0.0 && c.shares >= 0
    ensures 0.0 <= AllConverted()(c) && 0.0 <= PoolStock()(c) && 0.0 <= CommonStock()(c)
    ensures c.seniority > 0 ==> AllConverted()(c) == c.shares as real * c.ratio >= 0.0
    ensures c.seniority > 0 && !c.participating ==> PoolStock()(c) == c.shares as real * c.ratio
    ensures c.seniority <= 0 ==> CommonStock()(c) == c.shares as real
  {
  }

  /** A class's shares are at most all the shares they are counted among. */
  lemma ConvertedPart(cs: seq<ShareClass>, c: ShareClass)
    requires Ready(cs) && c in cs
    ensures c.seniority > 0 ==> 0.0 <= c.shares as real * c.ratio <= SumReal(AllConverted(), cs)
    ensures c.seniority > 0 && !c.participating ==> 0.0 <= c.shares as real * c.ratio <= SumReal(PoolStock(), cs)
    ensures c.seniority <= 0 ==> 0.0 <= c.shares as real <= SumReal(CommonStock(), cs)
  {
    hide *;
    ReadyIsSound(cs);
    forall b <- cs { WeightsOf(b); }
    SumNonNegative(AllConverted(), cs);
    SumNonNegative(PoolStock(), cs);
    SumNonNegative(CommonStock(), cs);
  }

  lemma Tier2Is(cs: seq<ShareClass>, proceeds: real, c: ShareClass, x: real)
    requires c.seniority > 0 && c.participating
    requires x == After1(cs, proceeds) * SafeDivide(c.AsConverted(), TotalConverted(cs))
    ensures Tier2(cs, proceeds, c) == if After1(cs, proceeds) > 0.0 then Capped(c, x, Tier1(cs, proceeds, c)) else 0.0
  {
  }

  lemma NothingIsCapped(c: ShareClass, paid: real)
    ensures Capped(c, 0.0, paid) == 0.0
  {
  }

  lemma AsConvertedIs(c: ShareClass)
    ensures c.AsConverted() == c.shares as real * c.ratio
  {
  }

  /** A participating class's tier 2 payout, from its part of what tier 1 leaves. */
  lemma ParticipationIs(cs: seq<ShareClass>, proceeds: real, c: ShareClass) returns (part: real)
    requires Ready(cs) && c in cs && c.seniority > 0 && c.participating
    ensures part >= 0.0
    ensures IsShareOf(part, After1(cs, proceeds), c.shares as real * c.ratio, SumReal(AllConverted(), cs))
    ensures Tier2(cs, proceeds, c) == Capped(c, part, Tier1(cs, proceeds, c))
  {
    hide *;
    ConvertedInFigures(cs);
    ConvertedPart(cs, c);
    AsConvertedIs(c);
    After1NonNegative(cs, proceeds);
    part := ShareIs(After1(cs, proceeds), c.AsConverted(), TotalConverted(cs));
    Tier2Is(cs, proceeds, c, part);
    NothingIsCapped(c, Tier1(cs, proceeds, c));
  }

  /** A participating class without a cap takes its as-converted part of what tier 1 leaves. */
  lemma UncappedParticipant(cs: seq<ShareClass>, proceeds: real, c: ShareClass)
    requires Ready(cs) && c in cs && c.seniority > 0 && c.participating && c.cap <= 0.0
    ensures IsShareOf(Tier2(cs, proceeds, c), After1(cs, proceeds), c.shares as real * c.ratio,
                      SumReal(AllConverted(), cs))
  {
    hide SumReal, IsShareOf, After1, Tier1, Tier2, AllConverted;
    var part := ParticipationIs(cs, proceeds, c);
  }

  /** A participating class with a cap ends tier 2 with the smaller of what it would hold without one and investment x
        cap, but never with less than its preference. */
  lemma CappedParticipant(cs: seq<ShareClass>, proceeds: real, c: ShareClass, uncapped: real)
    requires Ready(cs) && c in cs && c.seniority > 0 && c.participating && c.cap > 0.0
    requires SumReal(AllConverted(), cs) > 0.0
    requires IsShareOf(uncapped, After1(cs, proceeds), c.shares as real * c.ratio, SumReal(AllConverted(), cs))
    ensures var paid := Tier1(cs, proceeds, c);
      paid + Tier2(cs, proceeds, c) == Min(paid + uncapped, Max(c.investment * c.cap, paid))
  {
    hide SumReal, IsShareOf, After1, Tier1, Tier2, AllConverted;
    var part := ParticipationIs(cs, proceeds, c);
    OnlyShare(uncapped, part, After1(cs, proceeds), c.shares as real * c.ratio, SumReal(AllConverted(), cs));
  }

  /** Nobody else takes part in tier 2. */
  lemma OthersDoNotParticipate(cs: seq<ShareClass>, proceeds: real, c: ShareClass)
    requires c.seniority <= 0 || !c.participating
    ensures Tier2(cs, proceeds, c) == 0.0
  {
  }

  // ----- tier 3

  /** The conversion pool: what tier 2 leaves and the preferences returned. */
  lemma PoolInFigures(cs: seq<ShareClass>, proceeds: real)
    ensures Pool(cs, proceeds) == After2(cs, proceeds) + SumReal(Returned(cs, proceeds), cs)
  {
    PoolIs(cs, proceeds);
    hide SumReal, Tier1, After2, Pool;
    SumEqual(Returned(cs, proceeds), ConvertiblePaid(cs, proceeds), cs);
  }

  /** A non-participating class's pool share is its as-converted part of the pool, and it converts exactly if there is
      something left after tier 2 and that share is more than its preference. */
  lemma ConversionInFigures(cs: seq<ShareClass>, proceeds: real, c: ShareClass)
    requires Ready(cs) && c in cs && c.seniority > 0 && !c.participating
    ensures IsShareOf(PoolShare(cs, proceeds, c), Pool(cs, proceeds), c.shares as real * c.ratio,
                      SumReal(PoolStock(), cs))
    ensures Converts(cs, proceeds, c) <==>
            After2(cs, proceeds) > 0.0 && PoolShare(cs, proceeds, c) > Tier1(cs, proceeds, c)
    ensures TotalPaid(cs, proceeds, c) ==
            if Converts(cs, proceeds, c) then PoolShare(cs, proceeds, c) else Tier1(cs, proceeds, c)
  {
    hide SumReal, IsShareOf, Pool, PoolShares, PoolShare, SafeDivide, Tier1, Tier2, After2, Ready, PoolStock;
    ConvertedInFigures(cs);
    ConvertedPart(cs, c);
    OthersDoNotParticipate(cs, proceeds, c);
    AsConvertedIs(c);
    var x := ShareIs(Pool(cs, proceeds), c.AsConverted(), PoolShares(cs));
    PoolShareOf(cs, proceeds, c, x);
  }

  lemma PoolShareOf(cs: seq<ShareClass>, proceeds: real, c: ShareClass, x: real)
    requires x == Pool(cs, proceeds) * SafeDivide(c.AsConverted(), PoolShares(cs))
    ensures PoolShare(cs, proceeds, c) == x
  {
    hide Pool, PoolShares;
  }

  // ----- tier 4

  /** Common stock takes its part of what tier 3 leaves, by shares; without common shares the pot stays. */
  lemma CommonInFigures(cs: seq<ShareClass>, proceeds: real, c: ShareClass)
    requires Ready(cs) && c in cs && c.seniority <= 0
    ensures IsShareOf(TotalPaid(cs, proceeds, c), Max(After3(cs, proceeds), 0.0), c.shares as real,
                      SumReal(CommonStock(), cs))
  {
    hide *;
    ConvertedInFigures(cs);
    ConvertedPart(cs, c);
    Max0Is(After3(cs, proceeds));
    var x := ShareIs(Max(After3(cs, proceeds), 0.0), c.shares as real, SumReal(CommonShares(), cs));
    CommonPaidIs(cs, proceeds, c, x);
    if SumReal(CommonShares(), cs) == 0.0 { NothingAmongNone(x, Max(After3(cs, proceeds), 0.0), c.shares as real); }
  }

  lemma CommonPaidIs(cs: seq<ShareClass>, proceeds: real, c: ShareClass, x: real)
    requires c.seniority <= 0
    requires x == Max(After3(cs, proceeds), 0.0) * SafeDivide(c.shares as real, SumReal(CommonShares(), cs))
    ensures TotalPaid(cs, proceeds, c) ==
            if After3(cs, proceeds) > 0.0 && SumReal(CommonShares(), cs) > 0.0 then x else 0.0
  {
    hide SumReal, After3;
  }

  lemma NothingAmongNone(x: real, pot: real, mine: real)
    requires IsShareOf(x, pot, mine, 0.0)
    ensures IsShareOf(0.0, pot, mine, 0.0)
  {
    assert x * 0.0 == 0.0;
  }

  /** Whatever common stock there is takes a positive pot whole; otherwise the pot is the remainder. */
  lemma RemainderInFigures(cs: seq<ShareClass>, proceeds: real)
    ensures Remainder(cs, proceeds) ==
            if SumReal(CommonStock(), cs) > 0.0 then Min(After3(cs, proceeds), 0.0) else After3(cs, proceeds)
  {
    ConvertedInFigures(cs);
    hide SumReal, After3;
  }

  // ----- the returned tables

  /** An entry's per-share and multiple columns: the payout over the shares and what is held over the investment. */
  predicate IsEntry(d: Distribution, c: ShareClass, held: real) {
    && d.total == d.liquidation + d.participation + d.conversion
    && IsPer(d.perShare, d.total, c.shares as real) && IsPer(d.multiple, held, c.investment)
  }

  /** A quotient that is zero over zero. */
  predicate IsPer(q: real, x: real, y: real) {
    if y == 0.0 then q == 0.0 else q * y == x
  }

  lemma QuotientIs(x: real, y: real)
    ensures IsPer(SafeDivide(x, y), x, y)
  {
  }

  /** Tier 1 lists exactly the preferred classes, at their preference, or at nothing if they convert. */
  lemma Table1(r: WaterfallResult, cs: seq<ShareClass>, proceeds: real, c: ShareClass)
    requires IsWaterfall(r, cs, proceeds) && DistinctNames(cs) && c in cs
    ensures c.name in r.tiers[0].distributions <==> c.seniority > 0
    ensures c.seniority > 0 ==>
      && var d := r.tiers[0].distributions[c.name];
      && d.participation == d.conversion == 0.0
      && d.liquidation == (if Converts(cs, proceeds, c) then 0.0 else Tier1(cs, proceeds, c))
      && IsEntry(d, c, d.liquidation)
  {
    Lists(r.tiers[0].distributions, cs, Preferred(), Entry1Of(cs, proceeds), c);
    EntryQuotients(c, Tier1(cs, proceeds, c), Tier1(cs, proceeds, c));
    EntryQuotients(c, 0.0, 0.0);
    hide SumReal, TableOf, Tier1, Converts, SafeDivide, IsPer, DistinctNames;
    ZeroQuotients(c);
  }

  /** Tier 2 lists exactly the participating classes if anything is left, at their participation. */
  lemma Table2(r: WaterfallResult, cs: seq<ShareClass>, proceeds: real, c: ShareClass)
    requires IsWaterfall(r, cs, proceeds) && DistinctNames(cs) && c in cs
    ensures c.name in r.tiers[1].distributions <==> c.seniority > 0 && c.participating && After1(cs, proceeds) > 0.0
    ensures c.name in r.tiers[1].distributions ==>
      && var d := r.tiers[1].distributions[c.name];
      && d.liquidation == d.conversion == 0.0 && d.participation == Tier2(cs, proceeds, c)
      && IsEntry(d, c, Tier1(cs, proceeds, c) + d.participation)
  {
    Lists(r.tiers[1].distributions, cs, Tier2Receives(cs, proceeds), Tier2Entry(cs, proceeds), c);
    EntryQuotients(c, Tier2(cs, proceeds, c), Tier1(cs, proceeds, c) + Tier2(cs, proceeds, c));
    hide SumReal, TableOf, Tier1, Tier2, After1, SafeDivide, IsPer, DistinctNames;
  }

  /** Tier 3 lists exactly the classes that convert, at their pool share. */
  lemma Table3(r: WaterfallResult, cs: seq<ShareClass>, proceeds: real, c: ShareClass)
    requires IsWaterfall(r, cs, proceeds) && DistinctNames(cs) && c in cs
    ensures c.name in r.tiers[2].distributions <==> Converts(cs, proceeds, c)
    ensures c.name in r.tiers[2].distributions ==>
      && var d := r.tiers[2].distributions[c.name];
      && d.liquidation == d.participation == 0.0 && d.conversion == PoolShare(cs, proceeds, c)
      && IsEntry(d, c, d.conversion)
  {
    Lists(r.tiers[2].distributions, cs, ConvertsOf(cs, proceeds), Tier3Entry(cs, proceeds), c);
    EntryQuotients(c, PoolShare(cs, proceeds, c), PoolShare(cs, proceeds, c));
    hide SumReal, TableOf, PoolShare, Converts, SafeDivide, IsPer, DistinctNames;
  }

  /** Tier 4 lists exactly the common stock if anything is left for it; its entries carry a total alone. */
  lemma Table4(r: WaterfallResult, cs: seq<ShareClass>, proceeds: real, c: ShareClass)
    requires IsWaterfall(r, cs, proceeds) && DistinctNames(cs) && c in cs
    ensures c.name in r.tiers[3].distributions <==>
            c.seniority <= 0 && After3(cs, proceeds) > 0.0 && SumReal(CommonStock(), cs) > 0.0
    ensures c.name in r.tiers[3].distributions ==>
      && var d := r.tiers[3].distributions[c.name];
      && d.liquidation == d.participation == d.conversion == 0.0 && d.total == TotalPaid(cs, proceeds, c)
      && IsPer(d.perShare, d.total, c.shares as real) && IsPer(d.multiple, d.total, c.investment)
  {
    ConvertedInFigures(cs);
    Lists(r.tiers[3].distributions, cs, Tier4Receives(cs, proceeds), Tier4Entry(cs, proceeds), c);
    EntryQuotients(c, Tier4(cs, proceeds, c), Tier4(cs, proceeds, c));
    hide SumReal, TableOf, Tier4, After3, SafeDivide, IsPer, DistinctNames;
  }

  /** The four tables' names, and the reported totals. */
  lemma ResultInFigures(r: WaterfallResult, cs: seq<ShareClass>, proceeds: real)
    requires IsWaterfall(r, cs, proceeds)
    ensures |r.tiers| == 4 && r.tiers[0].name == "Liquidation Preferences" && r.tiers[1].name == "Participation"
    ensures r.tiers[2].name == "As-Converted Comparison" && r.tiers[3].name == "Common Distribution"
    ensures r.totalDistributed + r.remainder == proceeds && r.remainder == Remainder(cs, proceeds)
  {
    hide TableOf, Remainder;
  }

  lemma Lists(d: map<string, Distribution>, cs: seq<ShareClass>, p: ShareClass -> bool,
              entry: ShareClass -> Distribution, c: ShareClass)
    requires DistinctNames(cs) && c in cs && TableOf(d, cs, p, entry)
    ensures c.name in d <==> p(c)
    ensures p(c) ==> d[c.name] == entry(c)
  {
    if c.name in d {
      assert exists b <- cs :: p(b) && b.name == c.name;
      var b :| b in cs && p(b) && b.name == c.name;
      NamesAreDistinct(cs, b, c);
    }
  }

  lemma EntryQuotients(c: ShareClass, payout: real, held: real)
    ensures IsPer(SafeDivide(payout, c.shares as real), payout, c.shares as real)
    ensures IsPer(SafeDivide(held, c.investment), held, c.investment)
  {
    QuotientIs(payout, c.shares as real);
    QuotientIs(held, c.investment);
    hide SafeDivide, IsPer;
  }

  lemma ZeroQuotients(c: ShareClass)
    ensures IsPer(0.0, 0.0, c.shares as real) && IsPer(0.0, 0.0, c.investment)
  {
  }
}
