/** Raising the proceeds never lowers what any class is paid in all, through conversions and common stock included. */
module WaterfallMonotone {
  import opened GoBasics
  import opened Arithmetic
  import opened Waterfall
  import opened WaterfallTiers
  import opened WaterfallEngine
  import opened WaterfallTheorems

  // ----- tier 2 takes less than the pot grows

  lemma CappedGrowsSlowly(c: ShareClass, x: real, y: real, paid: real)
    requires x <= y
    ensures Capped(c, y, paid) - Capped(c, x, paid) <= y - x
  {
  }

  /** The share of a pot's growth that goes to some of the shares. */
  function GrowthShare(k: real, w: Weight): Weight {
    (c: ShareClass) => k * w(c)
  }

  /** What grows class by class by at most its share of a growth grows in all by at most that growth. */
  lemma GrowthFits(before: Weight, after: Weight, share: Weight, cs: seq<ShareClass>, growth: real, all: real)
    requires growth >= 0.0 && 0.0 <= SumReal(share, cs) <= all
    requires forall c <- cs :: after(c) - before(c) <= GrowthShare(PerShare(growth, all), share)(c)
    ensures SumReal(after, cs) - SumReal(before, cs) <= growth
  {
    var k, gained := PerShare(growth, all), Difference(after, before);
    PartOfPot(growth, SumReal(share, cs), all);
    SumScales(k, share, GrowthShare(k, share), cs);
    hide SumReal, PerShare, GrowthShare;
    SumAtMost(gained, GrowthShare(k, share), cs);
    SumAdds(gained, before, after, cs);
  }

  lemma UncappedGrowth(cs: seq<ShareClass>, less: real, more: real, c: ShareClass)
    ensures Uncapped(cs, more)(c) - Uncapped(cs, less)(c) ==
            GrowthShare(PerShare(After1(cs, more) - After1(cs, less), TotalConverted(cs)), ParticipatingShares())(c)
  {
    hide SumReal, After1, TotalConverted;
    ShareScales(After1(cs, more), c.AsConverted(), TotalConverted(cs));
    ShareScales(After1(cs, less), c.AsConverted(), TotalConverted(cs));
    PerShareOfDifference(After1(cs, more), After1(cs, less), TotalConverted(cs), c.AsConverted());
  }

  lemma PerShareOfDifference(x: real, y: real, all: real, mine: real)
    ensures PerShare(x - y, all) * mine == PerShare(x, all) * mine - PerShare(y, all) * mine
  {
    if all != 0.0 {
      assert (x - y) / all == x / all - y / all;
    }
  }

  /** Class by class, participation grows by at most the class's share of what tier 1 leaves in addition. */
  lemma Tier2Growth(cs: seq<ShareClass>, less: real, more: real, c: ShareClass)
    requires Ready(cs) && c in cs && less <= more && After1(cs, less) > 0.0 && After1(cs, more) > 0.0
    ensures Tier2(cs, more, c) - Tier2(cs, less, c) <=
            GrowthShare(PerShare(After1(cs, more) - After1(cs, less), TotalConverted(cs)), ParticipatingShares())(c)
  {
    hide *;
    ReadyIsSound(cs);
    Tier1Monotone(cs, less, more, c);
    UncappedGrowth(cs, less, more, c);
    if c.Participates() {
      Tier2OnTop(cs, less, c);
      Tier2OnTop(cs, more, c);
      UncappedMonotone(cs, less, more, c);
      CappedGrowsSlowly(c, Uncapped(cs, less)(c), Uncapped(cs, more)(c), c.Claim());
    } else {
      NoTier2(cs, less, c);
      NoTier2(cs, more, c);
      NoParticipatingShares(cs, less, more, c);
    }
  }

  lemma NoParticipatingShares(cs: seq<ShareClass>, less: real, more: real, c: ShareClass)
    requires !c.Participates()
    ensures 0.0 ==
            GrowthShare(PerShare(After1(cs, more) - After1(cs, less), TotalConverted(cs)), ParticipatingShares())(c)
  {
    hide After1, TotalConverted, PerShare;
  }

  lemma After1Monotone(cs: seq<ShareClass>, less: real, more: real)
    requires less <= more
    ensures After1(cs, less) <= After1(cs, more)
  {
  }

  lemma Tier2OfIs(cs: seq<ShareClass>, proceeds: real, c: ShareClass)
    ensures Tier2Of(cs, proceeds)(c) == Tier2(cs, proceeds, c)
  {
    hide Tier2;
  }

  lemma Tier2GrowthOf(cs: seq<ShareClass>, less: real, more: real, c: ShareClass)
    requires Ready(cs) && c in cs && less <= more && After1(cs, less) > 0.0
    ensures Tier2Of(cs, more)(c) - Tier2Of(cs, less)(c) <=
            GrowthShare(PerShare(After1(cs, more) - After1(cs, less), TotalConverted(cs)), ParticipatingShares())(c)
  {
    hide *;
    After1Monotone(cs, less, more);
    Tier2Growth(cs, less, more, c);
    Tier2OfIs(cs, less, c);
    Tier2OfIs(cs, more, c);
  }

  lemma Tier2GrowthFits(cs: seq<ShareClass>, less: real, more: real)
    requires Ready(cs) && less <= more && After1(cs, less) > 0.0
    ensures SumReal(Tier2Of(cs, more), cs) - SumReal(Tier2Of(cs, less), cs) <= After1(cs, more) - After1(cs, less)
  {
    hide *;
    After1Monotone(cs, less, more);
    ConvertedSums(cs);
    var growth, all := After1(cs, more) - After1(cs, less), TotalConverted(cs);
    forall c <- cs
      ensures Tier2Of(cs, more)(c) - Tier2Of(cs, less)(c) <=
              GrowthShare(PerShare(growth, all), ParticipatingShares())(c)
    {
      Tier2GrowthOf(cs, less, more, c);
    }
    GrowthFits(Tier2Of(cs, less), Tier2Of(cs, more), ParticipatingShares(), cs, growth, all);
  }

  /** What the first two tiers leave grows with the proceeds. */
  lemma After2Monotone(cs: seq<ShareClass>, less: real, more: real)
    requires Ready(cs) && less <= more
    ensures After2(cs, less) <= After2(cs, more)
  {
    hide *;
    PotSurvivesTier2(cs, less);
    PotSurvivesTier2(cs, more);
    After1Monotone(cs, less, more);
    if After1(cs, less) > 0.0 {
      After2Is(cs, less);
      After2Is(cs, more);
      Tier2GrowthFits(cs, less, more);
    }
  }

  // ----- tier 3 takes less than the pot grows

  lemma PoolMonotone(cs: seq<ShareClass>, less: real, more: real)
    requires Ready(cs) && less <= more
    ensures Pool(cs, less) <= Pool(cs, more)
  {
    ReadyIsSound(cs);
    After2Monotone(cs, less, more);
    PoolIs(cs, less);
    PoolIs(cs, more);
    forall c <- cs { Tier1Monotone(cs, less, more, c); }
    hide SumReal, Tier1, After1, After2, Pool, PoolShares;
    SumAtMost(ConvertiblePaid(cs, less), ConvertiblePaid(cs, more), cs);
  }

  lemma PoolSharesNonNegative(cs: seq<ShareClass>)
    requires Ready(cs)
    ensures 0.0 <= SumReal(ConvertibleShares(), cs) <= PoolShares(cs)
  {
    ConvertedSums(cs);
    hide SumReal;
  }

  lemma PoolShareMonotone(cs: seq<ShareClass>, less: real, more: real, c: ShareClass)
    requires Ready(cs) && c in cs && less <= more
    ensures PoolShare(cs, less, c) <= PoolShare(cs, more, c)
  {
    ReadyIsSound(cs);
    ConvertedSums(cs);
    PoolSharesNonNegative(cs);
    PoolMonotone(cs, less, more);
    hide SumReal, Pool, PoolShares, SafeDivide;
    ShareOfPot(1.0, c.AsConverted(), PoolShares(cs));
    Times(Pool(cs, less), Pool(cs, more), SafeDivide(c.AsConverted(), PoolShares(cs)));
  }

  /** After tier 1 has paid every claim, the pool grows by exactly what the first two tiers leave in addition. */
  lemma PoolGrowth(cs: seq<ShareClass>, less: real, more: real)
    requires Ready(cs) && less <= more && After1(cs, less) > 0.0
    ensures Pool(cs, more) - Pool(cs, less) == After2(cs, more) - After2(cs, less)
  {
    ReadyIsSound(cs);
    After1Monotone(cs, less, more);
    PoolIs(cs, less);
    PoolIs(cs, more);
    forall c <- cs | c.IsPreferred() { LeftoverMeansPaid(cs, less, c); }
    forall c <- cs | c.IsPreferred() { LeftoverMeansPaid(cs, more, c); }
    hide SumReal, Tier1, After1, After2, Pool, PoolShares;
    SumEqual(ConvertiblePaid(cs, less), ConvertiblePaid(cs, more), cs);
  }

  lemma PoolShareGrowth(cs: seq<ShareClass>, less: real, more: real, c: ShareClass)
    requires c.MayConvert()
    ensures PoolShare(cs, more, c) - PoolShare(cs, less, c) ==
            GrowthShare(PerShare(Pool(cs, more) - Pool(cs, less), PoolShares(cs)), ConvertibleShares())(c)
  {
    hide Pool, PoolShares;
    ShareScales(Pool(cs, more), c.AsConverted(), PoolShares(cs));
    ShareScales(Pool(cs, less), c.AsConverted(), PoolShares(cs));
    PerShareOfDifference(Pool(cs, more), Pool(cs, less), PoolShares(cs), c.AsConverted());
  }

  /** What a convertible class takes out of the pot in tier 3. */
  lemma GainIs(cs: seq<ShareClass>, proceeds: real, c: ShareClass)
    requires After2(cs, proceeds) > 0.0
    ensures ConversionGain(cs, proceeds)(c) ==
            if c.MayConvert() then 0.0 - Max0(PoolShare(cs, proceeds, c) - Tier1(cs, proceeds, c)) else 0.0
  {
    hide After2, PoolShare, Tier1;
  }

  /** Class by class, a conversion takes at most the class's share of the pool's growth in addition. */
  lemma GainGrowth(cs: seq<ShareClass>, less: real, more: real, c: ShareClass)
    requires Ready(cs) && c in cs && less <= more && After1(cs, less) > 0.0
    requires After2(cs, less) > 0.0 && After2(cs, more) > 0.0
    ensures ConversionGain(cs, less)(c) - ConversionGain(cs, more)(c) <=
            GrowthShare(PerShare(Pool(cs, more) - Pool(cs, less), PoolShares(cs)), ConvertibleShares())(c)
  {
    hide ConversionGain, PoolShare, Tier1, After1, After2, Pool, PoolShares, PerShare, ConvertibleShares, GrowthShare;
    GainIs(cs, less, c);
    GainIs(cs, more, c);
    if c.MayConvert() {
      ReadyIsSound(cs);
      After1Monotone(cs, less, more);
      LeftoverMeansPaid(cs, less, c);
      LeftoverMeansPaid(cs, more, c);
      PoolShareGrowth(cs, less, more, c);
      PoolShareMonotone(cs, less, more, c);
    } else {
      NoConvertibleShares(cs, less, more, c);
    }
  }

  lemma NoConvertibleShares(cs: seq<ShareClass>, less: real, more: real, c: ShareClass)
    requires !c.MayConvert()
    ensures GrowthShare(PerShare(Pool(cs, more) - Pool(cs, less), PoolShares(cs)), ConvertibleShares())(c) == 0.0
  {
    hide Pool, PoolShares, PerShare;
  }

  lemma GainGrowthFits(cs: seq<ShareClass>, less: real, more: real)
    requires Ready(cs) && less <= more && After1(cs, less) > 0.0
    requires After2(cs, less) > 0.0 && After2(cs, more) > 0.0
    ensures SumReal(ConversionGain(cs, less), cs) - SumReal(ConversionGain(cs, more), cs) <=
            Pool(cs, more) - Pool(cs, less)
  {
    hide *;
    PoolMonotone(cs, less, more);
    PoolSharesNonNegative(cs);
    var growth, all := Pool(cs, more) - Pool(cs, less), PoolShares(cs);
    forall c <- cs
      ensures ConversionGain(cs, less)(c) - ConversionGain(cs, more)(c) <=
              GrowthShare(PerShare(growth, all), ConvertibleShares())(c)
    {
      GainGrowth(cs, less, more, c);
    }
    GrowthFits(ConversionGain(cs, more), ConversionGain(cs, less), ConvertibleShares(), cs, growth, all);
  }

  /** Once tier 3 runs, what it leaves grows with the proceeds. */
  lemma After3Monotone(cs: seq<ShareClass>, less: real, more: real)
    requires Ready(cs) && less <= more && After2(cs, less) > 0.0
    ensures After3(cs, less) <= After3(cs, more)
  {
    hide *;
    PotSurvivesTier2(cs, less);
    After2Monotone(cs, less, more);
    PoolGrowth(cs, less, more);
    After3Is(cs, less);
    After3Is(cs, more);
    GainGrowthFits(cs, less, more);
  }

  // ----- every class

  lemma ConvertiblePaidMore(cs: seq<ShareClass>, less: real, more: real, c: ShareClass)
    requires Ready(cs) && c in cs && c.MayConvert() && less <= more
    ensures TotalPaid(cs, less, c) <= TotalPaid(cs, more, c)
  {
    ReadyIsSound(cs);
    Tier1Monotone(cs, less, more, c);
    PoolShareMonotone(cs, less, more, c);
    After2Monotone(cs, less, more);
    ConvertibleHasNoTier2(cs, less, c);
    ConvertibleHasNoTier2(cs, more, c);
    hide Tier1, Tier2, PoolShare, After2;
  }

  lemma ParticipantPaidMore(cs: seq<ShareClass>, less: real, more: real, c: ShareClass)
    requires Ready(cs) && c in cs && c.Participates() && less <= more
    ensures TotalPaid(cs, less, c) <= TotalPaid(cs, more, c)
  {
    MoreProceedsNeverHurt(cs, less, more, c);
    ParticipantKeepsEntry(cs, less, c);
    ParticipantKeepsEntry(cs, more, c);
    hide Tier1, Tier2, Converts;
  }

  /** Common stock is paid its share of what is left, or nothing. */
  lemma Tier4Share(cs: seq<ShareClass>, proceeds: real, c: ShareClass)
    requires Ready(cs) && c in cs && !c.IsPreferred()
    ensures Tier4(cs, proceeds, c) ==
            Max0(After3(cs, proceeds)) * SafeDivide(c.shares as real, SumReal(CommonShares(), cs))
    ensures SafeDivide(c.shares as real, SumReal(CommonShares(), cs)) >= 0.0
  {
    ReadyIsSound(cs);
    ConvertedSums(cs);
    hide After3;
    ShareOfPot(1.0, c.shares as real, SumReal(CommonShares(), cs));
    hide SumReal;
  }

  lemma CommonPaidMore(cs: seq<ShareClass>, less: real, more: real, c: ShareClass)
    requires Ready(cs) && c in cs && !c.IsPreferred() && less <= more
    ensures TotalPaid(cs, less, c) <= TotalPaid(cs, more, c)
  {
    Tier4Share(cs, less, c);
    Tier4Share(cs, more, c);
    var k := SafeDivide(c.shares as real, SumReal(CommonShares(), cs));
    if After2(cs, less) > 0.0 {
      After3Monotone(cs, less, more);
    } else {
      PotSurvivesTier2(cs, less);
      forall b ensures !Converts(cs, less, b) { NoneConvertFromEmptyPot(cs, less, b); }
      NothingConverts(cs, less);
    }
    hide After2, After3, Tier4, SafeDivide, SumReal;
    Times(Max0(After3(cs, less)), Max0(After3(cs, more)), k);
  }

  /** Raising the proceeds never lowers what any class is paid over the four tiers. */
  lemma MoreProceedsNeverHurtAnyone(cs: seq<ShareClass>, less: real, more: real, c: ShareClass)
    requires Ready(cs) && c in cs && less <= more
    ensures TotalPaid(cs, less, c) <= TotalPaid(cs, more, c)
  {
    hide TotalPaid;
    if !c.IsPreferred() {
      CommonPaidMore(cs, less, more, c);
    } else if c.participating {
      ParticipantPaidMore(cs, less, more, c);
    } else {
      ConvertiblePaidMore(cs, less, more, c);
    }
  }
}
