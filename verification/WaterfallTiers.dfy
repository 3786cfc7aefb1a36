/** What each tier of the waterfall pays, as a function of the classes and the proceeds alone: no order, no running
      state. */
module WaterfallTiers {
  import opened GoBasics
  import opened Arithmetic
  import opened Waterfall

  // ----- weights

  function ClaimOf(): Weight { (c: ShareClass) => c.Claim() }
  function Claims(): Weight { (c: ShareClass) => if c.IsPreferred() then c.Claim() else 0.0 }
  function ClaimsAbove(rank: int): Weight { (c: ShareClass) => if c.seniority > rank then c.Claim() else 0.0 }
  function ClaimsAt(rank: int): Weight { (c: ShareClass) => if c.seniority == rank then c.Claim() else 0.0 }
  function SharesOf(): Weight { (c: ShareClass) => c.shares as real }
  function ConvertedOf(): Weight { (c: ShareClass) => c.AsConverted() }
  function CommonShares(): Weight { (c: ShareClass) => if c.IsPreferred() then 0.0 else c.shares as real }
  function Converted(): Weight { (c: ShareClass) => if c.IsPreferred() then c.AsConverted() else 0.0 }
  function ConvertibleShares(): Weight { (c: ShareClass) => if c.MayConvert() then c.AsConverted() else 0.0 }

  // ----- tier 1: liquidation preferences by seniority

  /** A rank is paid in full if what its seniors leave covers it, and pro rata otherwise. */
  function Tier1(cs: seq<ShareClass>, proceeds: real, c: ShareClass): real {
    var left := Max0(proceeds - SumReal(ClaimsAbove(c.seniority), cs));
    var rank := SumReal(ClaimsAt(c.seniority), cs);
    if left >= rank then c.Claim() else left * SafeDivide(c.Claim(), rank)
  }

  function Tier1Of(cs: seq<ShareClass>, proceeds: real): Weight {
    (c: ShareClass) => Tier1(cs, proceeds, c)
  }

  function After1(cs: seq<ShareClass>, proceeds: real): real {
    Max0(proceeds - SumReal(Claims(), cs))
  }

  // ----- tier 2: participation, capped

  function TotalConverted(cs: seq<ShareClass>): real {
    SumReal(CommonShares(), cs) + SumReal(Converted(), cs)
  }

  /** A cap leaves room for what the class has not been paid yet. */
  function Capped(c: ShareClass, payout: real, paid: real): real {
    var room := Max0(c.investment * c.cap - paid);
    if c.cap > 0.0 && payout > room then room else payout
  }

  function Tier2(cs: seq<ShareClass>, proceeds: real, c: ShareClass): real {
    if c.Participates() && After1(cs, proceeds) > 0.0 then
      Capped(c, After1(cs, proceeds) * SafeDivide(c.AsConverted(), TotalConverted(cs)), Tier1(cs, proceeds, c))
    else 0.0
  }

  function Tier2Of(cs: seq<ShareClass>, proceeds: real): Weight {
    (c: ShareClass) => Tier2(cs, proceeds, c)
  }

  function After2(cs: seq<ShareClass>, proceeds: real): real {
    After1(cs, proceeds) - SumReal(Tier2Of(cs, proceeds), cs)
  }

  // ----- tier 3: conversion of non-participating classes

  function ConvertiblePaid(cs: seq<ShareClass>, proceeds: real): Weight {
    (c: ShareClass) => if c.MayConvert() then Tier1(cs, proceeds, c) else 0.0
  }

  function Pool(cs: seq<ShareClass>, proceeds: real): real {
    After2(cs, proceeds) + SumReal(ConvertiblePaid(cs, proceeds), cs)
  }

  function PoolShares(cs: seq<ShareClass>): real {
    SumReal(CommonShares(), cs) + SumReal(ConvertibleShares(), cs)
  }

  /** A class's pro-rata share of the conversion pool. */
  function PoolShare(cs: seq<ShareClass>, proceeds: real, c: ShareClass): real {
    SafeDivide(c.AsConverted(), PoolShares(cs)) * Pool(cs, proceeds)
  }

  predicate Converts(cs: seq<ShareClass>, proceeds: real, c: ShareClass) {
    c.MayConvert() && After2(cs, proceeds) > 0.0 && PoolShare(cs, proceeds, c) > Tier1(cs, proceeds, c)
  }

  function Tier3(cs: seq<ShareClass>, proceeds: real, c: ShareClass): real {
    if Converts(cs, proceeds, c) then PoolShare(cs, proceeds, c) else 0.0
  }

  /** What a conversion returns to the pot, less what it takes. */
  function ConversionGain(cs: seq<ShareClass>, proceeds: real): Weight {
    (c: ShareClass) =>
      if Converts(cs, proceeds, c) then Tier1(cs, proceeds, c) - PoolShare(cs, proceeds, c) else 0.0
  }

  function After3(cs: seq<ShareClass>, proceeds: real): real {
    After2(cs, proceeds) + SumReal(ConversionGain(cs, proceeds), cs)
  }

  // ----- tier 4: common stock

  predicate PaysCommon(cs: seq<ShareClass>, proceeds: real) {
    After3(cs, proceeds) > 0.0 && SumReal(CommonShares(), cs) > 0.0
  }

  function Tier4(cs: seq<ShareClass>, proceeds: real, c: ShareClass): real {
    if !c.IsPreferred() && PaysCommon(cs, proceeds) then
      After3(cs, proceeds) * SafeDivide(c.shares as real, SumReal(CommonShares(), cs))
    else 0.0
  }

  function Remainder(cs: seq<ShareClass>, proceeds: real): real {
    if PaysCommon(cs, proceeds) then 0.0 else After3(cs, proceeds)
  }

  // ----- the returned tables

  datatype Distribution = Distribution(
    liquidation: real, participation: real, conversion: real, total: real, perShare: real, multiple: real)

  /** The tier 1 entry; a converting class has had it zeroed. */
  function Entry1(cs: seq<ShareClass>, proceeds: real, c: ShareClass): Distribution {
    if Converts(cs, proceeds, c) then Distribution(0.0, 0.0, 0.0, 0.0, 0.0, 0.0)
    else Paid1(c, Tier1(cs, proceeds, c))
  }

  function Paid1(c: ShareClass, payout: real): Distribution {
    Distribution(payout, 0.0, 0.0, payout, SafeDivide(payout, c.shares as real), SafeDivide(payout, c.investment))
  }

  function Paid2(c: ShareClass, payout: real, already: real): Distribution {
    Distribution(0.0, payout, 0.0, payout, SafeDivide(payout, c.shares as real),
                 SafeDivide(already + payout, c.investment))
  }

  function Paid3(c: ShareClass, payout: real): Distribution {
    Distribution(0.0, 0.0, payout, payout, SafeDivide(payout, c.shares as real), SafeDivide(payout, c.investment))
  }

  function Paid4(c: ShareClass, payout: real): Distribution {
    Distribution(0.0, 0.0, 0.0, payout, SafeDivide(payout, c.shares as real), SafeDivide(payout, c.investment))
  }

  // ----- listing order does not matter

  lemma SameTier1(cs: seq<ShareClass>, ds: seq<ShareClass>, proceeds: real)
    requires multiset(cs) == multiset(ds)
    ensures forall c :: Tier1(cs, proceeds, c) == Tier1(ds, proceeds, c)
    ensures After1(cs, proceeds) == After1(ds, proceeds)
  {
    hide SumReal;
    forall c ensures Tier1(cs, proceeds, c) == Tier1(ds, proceeds, c) {
      SumIgnoresOrder(ClaimsAbove(c.seniority), cs, ds);
      SumIgnoresOrder(ClaimsAt(c.seniority), cs, ds);
    }
    SumIgnoresOrder(Claims(), cs, ds);
  }

  lemma SameTier2(cs: seq<ShareClass>, ds: seq<ShareClass>, proceeds: real)
    requires multiset(cs) == multiset(ds)
    ensures forall c :: Tier2(cs, proceeds, c) == Tier2(ds, proceeds, c)
    ensures After2(cs, proceeds) == After2(ds, proceeds)
  {
    SameTier1(cs, ds, proceeds);
    hide SumReal, Tier1, After1, Capped;
    SumIgnoresOrder(CommonShares(), cs, ds);
    SumIgnoresOrder(Converted(), cs, ds);
    assert forall c :: Tier2(cs, proceeds, c) == Tier2(ds, proceeds, c);
    SumIgnoresOrder(Tier2Of(cs, proceeds), cs, ds);
    SumEqual(Tier2Of(cs, proceeds), Tier2Of(ds, proceeds), ds);
  }

  lemma SamePool(cs: seq<ShareClass>, ds: seq<ShareClass>, proceeds: real)
    requires multiset(cs) == multiset(ds)
    ensures Pool(cs, proceeds) == Pool(ds, proceeds) && PoolShares(cs) == PoolShares(ds)
  {
    SameTier1(cs, ds, proceeds);
    SameTier2(cs, ds, proceeds);
    hide SumReal, Tier1, Tier2, After2;
    SumIgnoresOrder(ConvertiblePaid(cs, proceeds), cs, ds);
    SumEqual(ConvertiblePaid(cs, proceeds), ConvertiblePaid(ds, proceeds), ds);
    SumIgnoresOrder(CommonShares(), cs, ds);
    SumIgnoresOrder(ConvertibleShares(), cs, ds);
  }

  lemma SamePoolShare(cs: seq<ShareClass>, ds: seq<ShareClass>, proceeds: real, c: ShareClass)
    requires Pool(cs, proceeds) == Pool(ds, proceeds) && PoolShares(cs) == PoolShares(ds)
    ensures PoolShare(cs, proceeds, c) == PoolShare(ds, proceeds, c)
  {
    hide Pool, PoolShares, SafeDivide;
  }

  lemma SameTier3(cs: seq<ShareClass>, ds: seq<ShareClass>, proceeds: real, c: ShareClass)
    requires multiset(cs) == multiset(ds)
    ensures PoolShare(cs, proceeds, c) == PoolShare(ds, proceeds, c)
    ensures Converts(cs, proceeds, c) == Converts(ds, proceeds, c)
    ensures Tier3(cs, proceeds, c) == Tier3(ds, proceeds, c)
    ensures ConversionGain(cs, proceeds)(c) == ConversionGain(ds, proceeds)(c)
  {
    SameTier1(cs, ds, proceeds);
    SameTier2(cs, ds, proceeds);
    SamePool(cs, ds, proceeds);
    SamePoolShare(cs, ds, proceeds, c);
    hide Pool, PoolShares, PoolShare, Tier1, After2;
  }

  lemma SameAfter3(cs: seq<ShareClass>, ds: seq<ShareClass>, proceeds: real)
    requires multiset(cs) == multiset(ds)
    ensures After3(cs, proceeds) == After3(ds, proceeds)
  {
    SameTier2(cs, ds, proceeds);
    forall c { SameTier3(cs, ds, proceeds, c); }
    hide Tier1, Tier2, PoolShare, Converts, After2, ConversionGain, SumReal;
    SumIgnoresOrder(ConversionGain(cs, proceeds), cs, ds);
    SumEqual(ConversionGain(cs, proceeds), ConversionGain(ds, proceeds), ds);
  }

  lemma SameTier4(cs: seq<ShareClass>, ds: seq<ShareClass>, proceeds: real, c: ShareClass)
    requires multiset(cs) == multiset(ds)
    ensures Remainder(cs, proceeds) == Remainder(ds, proceeds)
    ensures Tier4(cs, proceeds, c) == Tier4(ds, proceeds, c)
  {
    SameAfter3(cs, ds, proceeds);
    SumIgnoresOrder(CommonShares(), cs, ds);
    hide SumReal, After3, SafeDivide, CommonShares;
  }

  /** Two listings of the same classes are paid alike: every tier, every class, whatever the proceeds. */
  lemma OrderDoesNotMatter(cs: seq<ShareClass>, ds: seq<ShareClass>, proceeds: real, c: ShareClass)
    requires multiset(cs) == multiset(ds)
    ensures Tier1(cs, proceeds, c) == Tier1(ds, proceeds, c)
    ensures Tier2(cs, proceeds, c) == Tier2(ds, proceeds, c)
    ensures Tier3(cs, proceeds, c) == Tier3(ds, proceeds, c)
    ensures Tier4(cs, proceeds, c) == Tier4(ds, proceeds, c)
    ensures Converts(cs, proceeds, c) == Converts(ds, proceeds, c)
    ensures Remainder(cs, proceeds) == Remainder(ds, proceeds)
  {
    SameTier1(cs, ds, proceeds);
    SameTier2(cs, ds, proceeds);
    SameTier3(cs, ds, proceeds, c);
    SameTier4(cs, ds, proceeds, c);
    hide *;
  }
}
