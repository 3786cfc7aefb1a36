/** What the waterfall guarantees: conservation, seniority, caps, monotonicity, and the exact account of tier 3. */
module WaterfallTheorems {
  import opened GoBasics
  import opened Arithmetic
  import opened Waterfall
  import opened WaterfallTiers
  import opened WaterfallLists
  import opened WaterfallEngine

  function Min(x: real, y: real): real {
    if x <= y then x else y
  }

  /** What Calculate works on: sound classes whose conversion ratios have been normalised. */
  ghost predicate Ready(cs: seq<ShareClass>) {
    forall c <- cs :: c.IsSound() && c.ratio > 0.0
  }

  lemma ReadyIsSound(cs: seq<ShareClass>)
    requires Ready(cs)
    ensures AllSound(cs)
    ensures forall c <- cs :: c.AsConverted() >= 0.0 && c.Claim() >= 0.0 && c.shares >= 0
  {
    forall c <- cs ensures c.AsConverted() >= 0.0 && c.Claim() >= 0.0 {
      assert c.IsSound();
    }
  }

  // ----- tier 1: seniority

  function PaidAbove(cs: seq<ShareClass>, proceeds: real, rank: int): Weight {
    (c: ShareClass) => if c.seniority > rank then Tier1(cs, proceeds, c) else 0.0
  }

  function PaidAt(cs: seq<ShareClass>, proceeds: real, rank: int): Weight {
    (c: ShareClass) => if c.seniority == rank then Tier1(cs, proceeds, c) else 0.0
  }

  lemma ClaimSums(cs: seq<ShareClass>, rank: int)
    requires AllSound(cs)
    ensures SumReal(ClaimsAbove(rank), cs) >= 0.0 && SumReal(ClaimsAt(rank), cs) >= 0.0
    ensures forall c <- cs :: c.seniority == rank ==> c.Claim() <= SumReal(ClaimsAt(rank), cs)
  {
    hide SumReal;
    forall c <- cs ensures c.Claim() >= 0.0 { ClaimIsNonNegative(c); }
    SumNonNegative(ClaimsAbove(rank), cs);
    SumNonNegative(ClaimsAt(rank), cs);
    forall c <- cs | c.seniority == rank ensures c.Claim() <= SumReal(ClaimsAt(rank), cs) {
      assert ClaimsAt(rank)(c) == c.Claim();
    }
  }

  lemma NextRank(cs: seq<ShareClass>, rank: int)
    ensures SumReal(ClaimsAbove(rank - 1), cs) == SumReal(ClaimsAbove(rank), cs) + SumReal(ClaimsAt(rank), cs)
  {
    SumAdds(ClaimsAbove(rank), ClaimsAt(rank), ClaimsAbove(rank - 1), cs);
  }

  /** A rank as a whole is paid its claims, or what its seniors left if that is less. */
  lemma RankIsPaid(cs: seq<ShareClass>, proceeds: real, rank: int)
    requires AllSound(cs)
    ensures SumReal(PaidAt(cs, proceeds, rank), cs) ==
            Min(SumReal(ClaimsAt(rank), cs), Max0(proceeds - SumReal(ClaimsAbove(rank), cs)))
  {
    hide SumReal, SafeDivide;
    ClaimSums(cs, rank);
    var left, whole := Max0(proceeds - SumReal(ClaimsAbove(rank), cs)), SumReal(ClaimsAt(rank), cs);
    if left >= whole {
      SumEqual(PaidAt(cs, proceeds, rank), ClaimsAt(rank), cs);
    } else {
      var k := left / whole;
      forall c <- cs ensures PaidAt(cs, proceeds, rank)(c) == k * ClaimsAt(rank)(c) {
        ProRata(left, c.Claim(), whole);
      }
      SumScales(k, ClaimsAt(rank), PaidAt(cs, proceeds, rank), cs);
    }
  }

  lemma ProRata(left: real, claim: real, whole: real)
    requires whole > 0.0
    ensures left * SafeDivide(claim, whole) == left / whole * claim
    ensures left / whole * whole == left
  {
  }

  /** Down to any rank, the classes above it hold all the proceeds or all their claims, whichever is less. */
  lemma {:induction false} PaidDownTo(cs: seq<ShareClass>, proceeds: real, rank: int, top: int)
    requires AllSound(cs) && proceeds >= 0.0 && rank <= top && forall c <- cs :: c.seniority <= top
    ensures SumReal(PaidAbove(cs, proceeds, rank), cs) == Min(proceeds, SumReal(ClaimsAbove(rank), cs))
    decreases top - rank
  {
    hide SumReal, Tier1;
    if rank == top {
      SumZero(PaidAbove(cs, proceeds, rank), cs);
      SumZero(ClaimsAbove(rank), cs);
    } else {
      PaidDownTo(cs, proceeds, rank + 1, top);
      NextRank(cs, rank + 1);
      RankIsPaid(cs, proceeds, rank + 1);
      ClaimSums(cs, rank + 1);
      SumAdds(PaidAbove(cs, proceeds, rank + 1), PaidAt(cs, proceeds, rank + 1), PaidAbove(cs, proceeds, rank), cs);
    }
  }

  lemma {:induction false} TopRank(cs: seq<ShareClass>) returns (top: nat)
    ensures forall c <- cs :: c.seniority <= top
  {
    top := 0;
    if cs != [] {
      var n := |cs| - 1;
      top := TopRank(cs[..n]);
      if cs[n].seniority > top { top := cs[n].seniority; }
      assert cs == cs[..n] + [cs[n]];
    }
  }

  function Tier1Paid(cs: seq<ShareClass>, proceeds: real): Weight {
    (c: ShareClass) => if c.IsPreferred() then Tier1(cs, proceeds, c) else 0.0
  }

  /** Tier 1 conserves: what it pays and what it leaves are the proceeds. */
  lemma Tier1Conserves(cs: seq<ShareClass>, proceeds: real)
    requires AllSound(cs) && proceeds >= 0.0
    ensures SumReal(Tier1Paid(cs, proceeds), cs) + After1(cs, proceeds) == proceeds
  {
    hide SumReal, Tier1;
    var top := TopRank(cs);
    PaidDownTo(cs, proceeds, 0, top);
    SumEqual(Tier1Paid(cs, proceeds), PaidAbove(cs, proceeds, 0), cs);
    SumEqual(Claims(), ClaimsAbove(0), cs);
  }

  lemma {:induction false} SeniorClaims(cs: seq<ShareClass>, junior: int, senior: int)
    requires AllSound(cs) && junior < senior
    ensures SumReal(ClaimsAbove(senior), cs) + SumReal(ClaimsAt(senior), cs) <= SumReal(ClaimsAbove(junior), cs)
    decreases senior - junior
  {
    hide SumReal;
    NextRank(cs, senior);
    if junior < senior - 1 {
      SeniorClaims(cs, junior, senior - 1);
      ClaimSums(cs, senior - 1);
    }
  }

  /** No class is paid in tier 1 unless every class senior to it is paid in full. */
  lemma JuniorWaits(cs: seq<ShareClass>, proceeds: real, junior: ShareClass, senior: ShareClass)
    requires AllSound(cs) && junior in cs && junior.seniority < senior.seniority
    requires Tier1(cs, proceeds, junior) > 0.0
    ensures Tier1(cs, proceeds, senior) == senior.Claim()
  {
    hide SumReal, SafeDivide;
    SeniorClaims(cs, junior.seniority, senior.seniority);
    ClaimSums(cs, junior.seniority);
  }

  /** Within a rank the payouts are in proportion to the claims, and nobody is paid more than its claim. */
  lemma RankSharesEvenly(cs: seq<ShareClass>, proceeds: real, c: ShareClass, d: ShareClass)
    requires AllSound(cs) && c in cs && d in cs && c.seniority == d.seniority
    ensures Tier1(cs, proceeds, c) * d.Claim() == Tier1(cs, proceeds, d) * c.Claim()
    ensures 0.0 <= Tier1(cs, proceeds, c) <= c.Claim()
  {
    hide SumReal;
    ClaimSums(cs, c.seniority);
    ClaimIsNonNegative(c);
    var left, whole := Max0(proceeds - SumReal(ClaimsAbove(c.seniority), cs)), SumReal(ClaimsAt(c.seniority), cs);
    if left < whole {
      ProRata(left, c.Claim(), whole);
      ProRata(left, d.Claim(), whole);
      Proportional(left / whole, c.Claim(), d.Claim());
      FractionOf(left, whole, c.Claim());
    }
  }

  lemma Proportional(k: real, x: real, y: real)
    ensures (k * x) * y == (k * y) * x
  {
  }

  lemma FractionOf(left: real, whole: real, claim: real)
    requires 0.0 <= left <= whole && whole > 0.0 && claim >= 0.0
    ensures 0.0 <= left / whole * claim <= claim
  {
    assert 0.0 <= left / whole <= 1.0;
  }

  // ----- tier 2: participation

  lemma ShareOfPot(pot: real, mine: real, all: real)
    requires pot >= 0.0 && mine >= 0.0 && all >= 0.0
    ensures pot * SafeDivide(mine, all) >= 0.0
  {
  }

  /** A participant's uncapped share of the pot. */
  function Uncapped(cs: seq<ShareClass>, proceeds: real): Weight {
    (c: ShareClass) =>
      if c.Participates() then After1(cs, proceeds) * SafeDivide(c.AsConverted(), TotalConverted(cs)) else 0.0
  }

  lemma ConvertedSums(cs: seq<ShareClass>)
    requires Ready(cs)
    ensures 0.0 <= SumReal(ParticipatingShares(), cs) <= TotalConverted(cs)
    ensures SumReal(CommonShares(), cs) >= 0.0 && SumReal(ConvertibleShares(), cs) >= 0.0
  {
    hide SumReal;
    ReadyIsSound(cs);
    SumNonNegative(CommonShares(), cs);
    SumNonNegative(ConvertibleShares(), cs);
    SumNonNegative(ParticipatingShares(), cs);
    SumAtMost(ParticipatingShares(), Converted(), cs);
  }

  function ParticipatingShares(): Weight {
    (c: ShareClass) => if c.Participates() then c.AsConverted() else 0.0
  }

  lemma Tier2Bounds(cs: seq<ShareClass>, proceeds: real, c: ShareClass)
    requires Ready(cs) && c in cs
    ensures 0.0 <= Tier2(cs, proceeds, c) <= Uncapped(cs, proceeds)(c)
  {
    hide SumReal, SafeDivide, Tier1, TotalConverted, After1;
    ReadyIsSound(cs);
    ConvertedSums(cs);
    After1NonNegative(cs, proceeds);
    ShareOfPot(After1(cs, proceeds), c.AsConverted(), TotalConverted(cs));
  }

  lemma After1NonNegative(cs: seq<ShareClass>, proceeds: real)
    ensures After1(cs, proceeds) >= 0.0
  {
  }

  function PerShare(pot: real, all: real): real {
    SafeDivide(pot, all)
  }

  lemma PartOfPot(pot: real, part: real, all: real)
    requires pot >= 0.0 && 0.0 <= part <= all
    ensures PerShare(pot, all) * part <= pot
  {
    if all > 0.0 {
      assert part / all <= 1.0;
      assert pot / all * part == pot * (part / all);
    }
  }

  lemma After2Is(cs: seq<ShareClass>, proceeds: real)
    ensures After2(cs, proceeds) == After1(cs, proceeds) - SumReal(Tier2Of(cs, proceeds), cs)
  {
  }

  /** Participation never overdraws the pot. */
  lemma PotSurvivesTier2(cs: seq<ShareClass>, proceeds: real)
    requires Ready(cs)
    ensures 0.0 <= After2(cs, proceeds) <= After1(cs, proceeds)
  {
    After2Is(cs, proceeds);
    hide SumReal, SafeDivide, Tier1, Tier2, TotalConverted, After1, After2, PerShare;
    forall c <- cs { Tier2Bounds(cs, proceeds, c); }
    ConvertedSums(cs);
    After1NonNegative(cs, proceeds);
    SumNonNegative(Tier2Of(cs, proceeds), cs);
    SumAtMost(Tier2Of(cs, proceeds), Uncapped(cs, proceeds), cs);
    var pot, all := After1(cs, proceeds), TotalConverted(cs);
    var k := PerShare(pot, all);
    forall c <- cs ensures Uncapped(cs, proceeds)(c) == k * ParticipatingShares()(c) {
      ShareScales(pot, c.AsConverted(), all);
    }
    SumScales(k, ParticipatingShares(), Uncapped(cs, proceeds), cs);
    PartOfPot(pot, SumReal(ParticipatingShares(), cs), all);
  }

  lemma ShareScales(pot: real, mine: real, all: real)
    ensures pot * SafeDivide(mine, all) == PerShare(pot, all) * mine
  {
  }

  /** A capped participant holds at most its cap, or what tier 1 alone had already paid it. */
  lemma CapHolds(cs: seq<ShareClass>, proceeds: real, c: ShareClass)
    requires Ready(cs) && c in cs && c.cap > 0.0
    ensures var held, cap := Tier1(cs, proceeds, c) + Tier2(cs, proceeds, c), c.investment * c.cap;
      held <= cap || held == Tier1(cs, proceeds, c)
  {
    hide SumReal, SafeDivide, Tier1, TotalConverted, After1;
    Tier2Bounds(cs, proceeds, c);
  }

  /** A leftover after tier 1 means that every class was paid its claim in full. */
  lemma LeftoverMeansPaid(cs: seq<ShareClass>, proceeds: real, c: ShareClass)
    requires AllSound(cs) && c.IsPreferred() && After1(cs, proceeds) > 0.0
    ensures Tier1(cs, proceeds, c) == c.Claim()
  {
    hide SumReal;
    SumEqual(Claims(), ClaimsAbove(0), cs);
    SeniorClaims(cs, 0, c.seniority);
  }

  lemma Tier1Monotone(cs: seq<ShareClass>, less: real, more: real, c: ShareClass)
    requires AllSound(cs) && c in cs && less <= more
    ensures Tier1(cs, less, c) <= Tier1(cs, more, c)
    ensures After1(cs, less) <= After1(cs, more)
  {
    hide SumReal;
    RankSharesEvenly(cs, less, c, c);
    ClaimSums(cs, c.seniority);
    ClaimIsNonNegative(c);
    var whole := SumReal(ClaimsAt(c.seniority), cs);
    var left := Max0(less - SumReal(ClaimsAbove(c.seniority), cs));
    var left' := Max0(more - SumReal(ClaimsAbove(c.seniority), cs));
    if left' < whole {
      Times(left, left', SafeDivide(c.Claim(), whole));
    }
  }

  lemma Times(x: real, y: real, k: real)
    requires x <= y && k >= 0.0
    ensures x * k <= y * k
  {
  }

  /** Raising the proceeds never lowers what a class holds after tiers 1 and 2. */
  lemma MoreProceedsNeverHurt(cs: seq<ShareClass>, less: real, more: real, c: ShareClass)
    requires Ready(cs) && c in cs && c.IsPreferred() && less <= more
    ensures Tier1(cs, less, c) + Tier2(cs, less, c) <= Tier1(cs, more, c) + Tier2(cs, more, c)
  {
    ReadyIsSound(cs);
    Tier1Monotone(cs, less, more, c);
    Tier2Bounds(cs, more, c);
    hide SumReal, Tier1, Tier2, After1, Capped, Uncapped;
    if c.Participates() && After1(cs, less) > 0.0 {
      Tier2OnTop(cs, less, c);
      Tier2OnTop(cs, more, c);
      UncappedMonotone(cs, less, more, c);
      CappedMonotone(c, Uncapped(cs, less)(c), Uncapped(cs, more)(c), c.Claim());
    } else {
      NoTier2(cs, less, c);
    }
  }

  lemma NoTier2(cs: seq<ShareClass>, proceeds: real, c: ShareClass)
    requires !(c.Participates() && After1(cs, proceeds) > 0.0)
    ensures Tier2(cs, proceeds, c) == 0.0
  {
  }

  /** What participation adds to a preference paid in full. */
  lemma Tier2OnTop(cs: seq<ShareClass>, proceeds: real, c: ShareClass)
    requires AllSound(cs) && c.Participates() && After1(cs, proceeds) > 0.0
    ensures Tier1(cs, proceeds, c) == c.Claim()
    ensures Tier2(cs, proceeds, c) == Capped(c, Uncapped(cs, proceeds)(c), c.Claim())
  {
    LeftoverMeansPaid(cs, proceeds, c);
    hide SumReal, SafeDivide, Tier1, TotalConverted, After1, Capped;
  }

  lemma UncappedMonotone(cs: seq<ShareClass>, less: real, more: real, c: ShareClass)
    requires Ready(cs) && c in cs && After1(cs, less) <= After1(cs, more)
    ensures Uncapped(cs, less)(c) <= Uncapped(cs, more)(c)
  {
    ReadyIsSound(cs);
    ConvertedSums(cs);
    hide SumReal, SafeDivide, TotalConverted, After1;
    ShareOfPot(1.0, c.AsConverted(), TotalConverted(cs));
    Times(After1(cs, less), After1(cs, more), SafeDivide(c.AsConverted(), TotalConverted(cs)));
  }

  lemma CappedMonotone(c: ShareClass, x: real, y: real, paid: real)
    requires x <= y
    ensures Capped(c, x, paid) <= Capped(c, y, paid)
  {
  }

  // ----- tier 3: the exact account

  /** What keeping its preference costs the pool: the preference less the class's pool share. */
  function KeeperExcess(cs: seq<ShareClass>, proceeds: real): Weight {
    (c: ShareClass) =>
      if c.MayConvert() && !Converts(cs, proceeds, c) then Tier1(cs, proceeds, c) - PoolShare(cs, proceeds, c) else 0.0
  }

  function AllPoolShares(cs: seq<ShareClass>, proceeds: real): Weight {
    (c: ShareClass) => if c.MayConvert() then PoolShare(cs, proceeds, c) else 0.0
  }

  /** The common stock's part of the pool, common x P / S. */
  function CommonPart(cs: seq<ShareClass>, proceeds: real): real {
    SafeDivide(SumReal(CommonShares(), cs), PoolShares(cs)) * Pool(cs, proceeds)
  }

  function Excess(cs: seq<ShareClass>, proceeds: real): real {
    SumReal(KeeperExcess(cs, proceeds), cs)
  }

  /** When tier 3 runs on a pool with shares in it, it leaves the common part less the keepers' excess, exactly. */
  lemma Tier3Account(cs: seq<ShareClass>, proceeds: real)
    requires After2(cs, proceeds) > 0.0 && PoolShares(cs) != 0.0
    ensures After3(cs, proceeds) == CommonPart(cs, proceeds) - Excess(cs, proceeds)
  {
    PoolSplits(cs, proceeds);
    hide SumReal, Tier1, Tier2, After2, Pool, PoolShares, PoolShare, SafeDivide, CommonPart;
    PoolIs(cs, proceeds);
    var gain, keep, all, paid := ConversionGain(cs, proceeds), KeeperExcess(cs, proceeds), AllPoolShares(cs, proceeds),
      ConvertiblePaid(cs, proceeds);
    GainAndExcess(cs, proceeds);
    SumAdds(gain, keep, Difference(paid, all), cs);
    SumAdds(Difference(paid, all), all, paid, cs);
  }

  function Difference(v: Weight, w: Weight): Weight {
    (c: ShareClass) => v(c) - w(c)
  }

  /** Class by class, what a conversion gains and a keeper costs is the preference less the pool share. */
  lemma GainAndExcess(cs: seq<ShareClass>, proceeds: real)
    ensures forall c <- cs :: ConvertiblePaid(cs, proceeds)(c) - AllPoolShares(cs, proceeds)(c) ==
                              ConversionGain(cs, proceeds)(c) + KeeperExcess(cs, proceeds)(c)
  {
    hide Tier1, Tier2, After2, PoolShare;
  }

  /** The pool shares of the convertible classes and of common stock exhaust the pool. */
  lemma PoolSplits(cs: seq<ShareClass>, proceeds: real)
    requires PoolShares(cs) != 0.0
    ensures SumReal(AllPoolShares(cs, proceeds), cs) + CommonPart(cs, proceeds) == Pool(cs, proceeds)
  {
    hide SumReal, Pool;
    var pool, all := Pool(cs, proceeds), PoolShares(cs);
    forall c <- cs ensures AllPoolShares(cs, proceeds)(c) == pool / all * ConvertibleShares()(c) {
      Exchange(pool, c.AsConverted(), all);
    }
    SumScales(pool / all, ConvertibleShares(), AllPoolShares(cs, proceeds), cs);
    Exchange(pool, SumReal(CommonShares(), cs), all);
    Whole(pool, SumReal(ConvertibleShares(), cs), SumReal(CommonShares(), cs), all);
  }

  lemma Exchange(pool: real, mine: real, all: real)
    requires all != 0.0
    ensures SafeDivide(mine, all) * pool == pool / all * mine
  {
  }

  lemma Whole(pool: real, x: real, y: real, all: real)
    requires all == x + y && all != 0.0
    ensures pool / all * x + pool / all * y == pool
  {
    assert pool / all * x + pool / all * y == pool / all * all;
  }

  /** Tier 3 keeps the pot out of the red exactly when the common part covers the keepers' excess. */
  lemma Tier3Solvent(cs: seq<ShareClass>, proceeds: real)
    requires Ready(cs)
    ensures After3(cs, proceeds) >= 0.0 <==>
            !(After2(cs, proceeds) > 0.0 && PoolShares(cs) > 0.0 && Excess(cs, proceeds) > CommonPart(cs, proceeds))
  {
    hide SumReal, CommonPart, Excess, After2;
    ConvertedSums(cs);
    PoolIs(cs, proceeds);
    PotSurvivesTier2(cs, proceeds);
    hide PoolShares, After3;
    if After2(cs, proceeds) > 0.0 && PoolShares(cs) > 0.0 {
      Tier3Account(cs, proceeds);
    } else {
      forall c <- cs ensures !Converts(cs, proceeds, c) { NoConversion(cs, proceeds, c); }
      NothingConverts(cs, proceeds);
    }
  }

  lemma NoConversion(cs: seq<ShareClass>, proceeds: real, c: ShareClass)
    requires Ready(cs) && c in cs && (After2(cs, proceeds) <= 0.0 || PoolShares(cs) == 0.0)
    ensures !Converts(cs, proceeds, c)
  {
    hide SumReal, Tier1, After2, Pool, PoolShares;
    ReadyIsSound(cs);
    if c.MayConvert() && After2(cs, proceeds) > 0.0 {
      RankSharesEvenly(cs, proceeds, c, c);
    }
  }

  lemma NothingConverts(cs: seq<ShareClass>, proceeds: real)
    requires forall c <- cs :: !Converts(cs, proceeds, c)
    ensures After3(cs, proceeds) == After2(cs, proceeds)
  {
    forall c <- cs { NotYetConverting(cs, proceeds, c); }
    hide Converts, ConversionGain, SumReal, After2;
    SumZero(ConversionGain(cs, proceeds), cs);
    After3Is(cs, proceeds);
  }

  lemma After3Is(cs: seq<ShareClass>, proceeds: real)
    ensures After3(cs, proceeds) == After2(cs, proceeds) + SumReal(ConversionGain(cs, proceeds), cs)
  {
  }

  /** If every convertible class converts, tier 3 leaves exactly the common part, which is never negative. */
  lemma AllConvert(cs: seq<ShareClass>, proceeds: real)
    requires Ready(cs) && After2(cs, proceeds) > 0.0 && PoolShares(cs) > 0.0
    requires forall c <- cs :: c.MayConvert() ==> Converts(cs, proceeds, c)
    ensures After3(cs, proceeds) == CommonPart(cs, proceeds) >= 0.0
  {
    Tier3Account(cs, proceeds);
    CommonPartNonNegative(cs, proceeds);
    SumZero(KeeperExcess(cs, proceeds), cs);
  }

  lemma CommonPartNonNegative(cs: seq<ShareClass>, proceeds: real)
    requires Ready(cs) && PoolShares(cs) > 0.0
    ensures CommonPart(cs, proceeds) >= 0.0
  {
    hide SumReal, PoolShares, Pool, SafeDivide;
    ConvertedSums(cs);
    PoolNonNegative(cs, proceeds);
    ShareOfPot(Pool(cs, proceeds), SumReal(CommonShares(), cs), PoolShares(cs));
  }

  lemma PoolNonNegative(cs: seq<ShareClass>, proceeds: real)
    requires Ready(cs)
    ensures Pool(cs, proceeds) >= 0.0
  {
    PoolIs(cs, proceeds);
    PotSurvivesTier2(cs, proceeds);
    ReadyIsSound(cs);
    hide SumReal, Tier1, After2, Pool;
    forall c <- cs { RankSharesEvenly(cs, proceeds, c, c); }
    SumNonNegative(ConvertiblePaid(cs, proceeds), cs);
  }

  /** An overdrawn pot needs both a class that converts and a class that keeps its preference. */
  lemma OverdrawnNeedsBoth(cs: seq<ShareClass>, proceeds: real) returns (converter: ShareClass, keeper: ShareClass)
    requires Ready(cs) && After3(cs, proceeds) < 0.0
    ensures converter in cs && Converts(cs, proceeds, converter)
    ensures keeper in cs && keeper.MayConvert() && !Converts(cs, proceeds, keeper)
  {
    hide SumReal, Converts, After2, After3, PoolShares, Excess, CommonPart;
    Tier3Solvent(cs, proceeds);
    PotSurvivesTier2(cs, proceeds);
    if forall c <- cs :: !Converts(cs, proceeds, c) {
      NothingConverts(cs, proceeds);
      assert false;
    }
    converter :| converter in cs && Converts(cs, proceeds, converter);
    if forall c <- cs :: c.MayConvert() ==> Converts(cs, proceeds, c) {
      AllConvert(cs, proceeds);
      assert false;
    }
    keeper :| keeper in cs && keeper.MayConvert() && !Converts(cs, proceeds, keeper);
  }

  /** With at most one non-participating class the pot never goes negative. */
  lemma OneConvertibleIsSolvent(cs: seq<ShareClass>, proceeds: real)
    requires Ready(cs)
    requires forall c <- cs, d <- cs :: c.MayConvert() && d.MayConvert() ==> c == d
    ensures After3(cs, proceeds) >= 0.0
  {
    hide After3, Converts;
    if After3(cs, proceeds) < 0.0 {
      var c, k := OverdrawnNeedsBoth(cs, proceeds);
      OnlyConvertiblesConvert(cs, proceeds, c);
      assert false;
    }
  }

  /** When tier 3 runs, a non-participating class ends with the better of its preference and its pool share. */
  lemma BetterOfTwo(cs: seq<ShareClass>, proceeds: real, c: ShareClass)
    requires c.MayConvert() && After2(cs, proceeds) > 0.0
    ensures TotalPaid(cs, proceeds, c) == -Min(-Tier1(cs, proceeds, c), -PoolShare(cs, proceeds, c))
  {
    ConvertibleHasNoTier2(cs, proceeds, c);
    hide Tier1, Tier2, PoolShare, After2;
  }

  // ----- conservation over the four tables

  /** The total of a table: what it lists for each of the classes. */
  function Listed(d: map<string, Distribution>): Weight {
    (c: ShareClass) => if c.name in d then d[c.name].total else 0.0
  }

  function TableTotal(t: Tier, cs: seq<ShareClass>): real {
    SumReal(Listed(t.distributions), cs)
  }

  function Entry1Total(cs: seq<ShareClass>, proceeds: real): Weight {
    (c: ShareClass) => if c.IsPreferred() && !Converts(cs, proceeds, c) then Tier1(cs, proceeds, c) else 0.0
  }

  function Tier3Of(cs: seq<ShareClass>, proceeds: real): Weight {
    (c: ShareClass) => Tier3(cs, proceeds, c)
  }

  function Tier4Of(cs: seq<ShareClass>, proceeds: real): Weight {
    (c: ShareClass) => Tier4(cs, proceeds, c)
  }

  function TotalPaidOf(cs: seq<ShareClass>, proceeds: real): Weight {
    (c: ShareClass) => TotalPaid(cs, proceeds, c)
  }

  /** A table lists a class exactly if the class receives from that tier. */
  lemma ListedIs(d: map<string, Distribution>, cs: seq<ShareClass>, p: ShareClass -> bool,
                 entry: ShareClass -> Distribution, c: ShareClass)
    requires DistinctNames(cs) && c in cs && TableOf(d, cs, p, entry)
    ensures Listed(d)(c) == if p(c) then entry(c).total else 0.0
  {
    if c.name in d {
      assert exists b <- cs :: p(b) && b.name == c.name;
      var b :| b in cs && p(b) && b.name == c.name;
      NamesAreDistinct(cs, b, c);
    }
  }

  /** What the four tables list for a class. */
  lemma ListedTiers(r: WaterfallResult, cs: seq<ShareClass>, proceeds: real, c: ShareClass)
    requires IsWaterfall(r, cs, proceeds) && DistinctNames(cs) && c in cs
    ensures Listed(r.tiers[0].distributions)(c) == Entry1Total(cs, proceeds)(c)
    ensures Listed(r.tiers[1].distributions)(c) == Tier2(cs, proceeds, c)
    ensures Listed(r.tiers[2].distributions)(c) == Tier3(cs, proceeds, c)
    ensures Listed(r.tiers[3].distributions)(c) == Tier4(cs, proceeds, c)
  {
    ListedIs(r.tiers[0].distributions, cs, Preferred(), Entry1Of(cs, proceeds), c);
    ListedIs(r.tiers[1].distributions, cs, Tier2Receives(cs, proceeds), Tier2Entry(cs, proceeds), c);
    ListedIs(r.tiers[2].distributions, cs, ConvertsOf(cs, proceeds), Tier3Entry(cs, proceeds), c);
    ListedIs(r.tiers[3].distributions, cs, Tier4Receives(cs, proceeds), Tier4Entry(cs, proceeds), c);
    hide SumReal, TableOf, Tier1, After1, After2, After3, PoolShare, TotalConverted, Capped, DistinctNames, Listed;
  }

  /** Each class's payouts over the four tables add up to its cumulative ledger value. */
  lemma TablesMatchLedger(r: WaterfallResult, cs: seq<ShareClass>, proceeds: real, c: ShareClass)
    requires IsWaterfall(r, cs, proceeds) && DistinctNames(cs) && c in cs
    ensures Listed(r.tiers[0].distributions)(c) + Listed(r.tiers[1].distributions)(c)
          + Listed(r.tiers[2].distributions)(c) + Listed(r.tiers[3].distributions)(c) == TotalPaid(cs, proceeds, c)
  {
    ListedTiers(r, cs, proceeds, c);
    NeverTwice(cs, proceeds, c);
  }

  lemma NeverTwice(cs: seq<ShareClass>, proceeds: real, c: ShareClass)
    ensures Entry1Total(cs, proceeds)(c) + Tier2(cs, proceeds, c) + Tier3(cs, proceeds, c) + Tier4(cs, proceeds, c) ==
            TotalPaid(cs, proceeds, c)
  {
    hide SumReal, Tier1, After1, After2, After3, PoolShare, TotalConverted, Capped;
  }

  /** Tier 4 pays out what tier 3 left, up to the remainder. */
  lemma Tier4Conserves(cs: seq<ShareClass>, proceeds: real)
    ensures SumReal(Tier4Of(cs, proceeds), cs) + Remainder(cs, proceeds) == After3(cs, proceeds)
  {
    hide SumReal, After3;
    if PaysCommon(cs, proceeds) {
      var pot, all := After3(cs, proceeds), SumReal(CommonShares(), cs);
      forall c <- cs ensures Tier4Of(cs, proceeds)(c) == PerShare(pot, all) * CommonShares()(c) {
        ShareScales(pot, c.shares as real, all);
      }
      SumScales(PerShare(pot, all), CommonShares(), Tier4Of(cs, proceeds), cs);
    } else {
      SumZero(Tier4Of(cs, proceeds), cs);
    }
  }

  /** Nothing is created or lost: everything the classes are paid and the remainder add up to the proceeds. */
  lemma PayoutsConserve(cs: seq<ShareClass>, proceeds: real)
    requires AllSound(cs) && proceeds >= 0.0
    ensures SumReal(TotalPaidOf(cs, proceeds), cs) + Remainder(cs, proceeds) == proceeds
  {
    Tier1Conserves(cs, proceeds);
    After2Is(cs, proceeds);
    After3Is(cs, proceeds);
    Tier4Conserves(cs, proceeds);
    forall c <- cs { NeverTwice(cs, proceeds, c); }
    forall c <- cs { Replaced(cs, proceeds, c); }
    hide SumReal, Tier1, Tier2, Tier3, Tier4, After1, After2, After3, Remainder, Converts, TotalPaid, ConversionGain,
      Entry1Total, Tier1Paid;
    var one, two, three, four, gain := Entry1Total(cs, proceeds), Tier2Of(cs, proceeds), Tier3Of(cs, proceeds),
      Tier4Of(cs, proceeds), ConversionGain(cs, proceeds);
    SumAdds(one, Plus(three, gain), Tier1Paid(cs, proceeds), cs);
    SumAdds(three, gain, Plus(three, gain), cs);
    SumAdds(one, two, Plus(one, two), cs);
    SumAdds(three, four, Plus(three, four), cs);
    SumAdds(Plus(one, two), Plus(three, four), TotalPaidOf(cs, proceeds), cs);
  }

  function Plus(v: Weight, w: Weight): Weight {
    (c: ShareClass) => v(c) + w(c)
  }

  /** A conversion replaces the tier 1 entry: the entry, the conversion payout and its gain are the old preference. */
  lemma Replaced(cs: seq<ShareClass>, proceeds: real, c: ShareClass)
    ensures Tier1Paid(cs, proceeds)(c) ==
            Entry1Total(cs, proceeds)(c) + Tier3(cs, proceeds, c) + ConversionGain(cs, proceeds)(c)
  {
    hide Tier1, PoolShare, After2;
  }

  /** The four returned tables and the remainder add up to the proceeds, zeroed tier 1 entries included. */
  lemma WaterfallConserves(r: WaterfallResult, cs: seq<ShareClass>, proceeds: real)
    requires IsWaterfall(r, cs, proceeds) && DistinctNames(cs) && AllSound(cs) && proceeds >= 0.0
    ensures TableTotal(r.tiers[0], cs) + TableTotal(r.tiers[1], cs) + TableTotal(r.tiers[2], cs)
          + TableTotal(r.tiers[3], cs) + r.remainder == proceeds
    ensures TableTotal(r.tiers[0], cs) + TableTotal(r.tiers[1], cs) + TableTotal(r.tiers[2], cs)
          + TableTotal(r.tiers[3], cs) == r.totalDistributed
  {
    PayoutsConserve(cs, proceeds);
    forall c <- cs { TablesMatchLedger(r, cs, proceeds, c); }
    hide SumReal, Listed, TotalPaid, Remainder, TableOf;
    var one, two, three, four := Listed(r.tiers[0].distributions), Listed(r.tiers[1].distributions),
      Listed(r.tiers[2].distributions), Listed(r.tiers[3].distributions);
    SumAdds(one, two, Plus(one, two), cs);
    SumAdds(three, four, Plus(three, four), cs);
    SumAdds(Plus(one, two), Plus(three, four), TotalPaidOf(cs, proceeds), cs);
  }

  /** The waterfall hands out more than the proceeds exactly when the keepers' excess beats the common part. */
  lemma OverdistributesIff(r: WaterfallResult, cs: seq<ShareClass>, proceeds: real)
    requires IsWaterfall(r, cs, proceeds) && Ready(cs) && proceeds >= 0.0
    ensures r.totalDistributed > proceeds <==>
            After2(cs, proceeds) > 0.0 && PoolShares(cs) > 0.0 && Excess(cs, proceeds) > CommonPart(cs, proceeds)
  {
    Tier3Solvent(cs, proceeds);
    hide SumReal, After2, After3, PoolShares, Excess, CommonPart, TableOf;
  }

  // ----- one result per set of classes

  /** Two listings of the same classes give the same result, table for table. */
  lemma SameResult(r: WaterfallResult, r': WaterfallResult, cs: seq<ShareClass>, ds: seq<ShareClass>, proceeds: real)
    requires IsWaterfall(r, cs, proceeds) && IsWaterfall(r', ds, proceeds)
    requires multiset(cs) == multiset(ds)
    ensures r == r'
  {
    forall c ensures c in cs <==> c in ds { assert c in multiset(cs) <==> c in multiset(ds); }
    SameRemainder(cs, ds, proceeds);
    hide SumReal, TableOf, Remainder, Entry1Of, Tier2Entry, Tier3Entry, Tier4Entry, Tier2Receives, ConvertsOf,
      Tier4Receives, Preferred;
    forall c <- cs { SameEntries(cs, ds, proceeds, c); }
    forall c <- cs { SameReceivers(cs, ds, proceeds, c); }
    SameTables(r.tiers[0].distributions, r'.tiers[0].distributions, cs, ds, Preferred(), Preferred(),
               Entry1Of(cs, proceeds), Entry1Of(ds, proceeds));
    SameTables(r.tiers[1].distributions, r'.tiers[1].distributions, cs, ds, Tier2Receives(cs, proceeds),
               Tier2Receives(ds, proceeds), Tier2Entry(cs, proceeds), Tier2Entry(ds, proceeds));
    SameTables(r.tiers[2].distributions, r'.tiers[2].distributions, cs, ds, ConvertsOf(cs, proceeds),
               ConvertsOf(ds, proceeds), Tier3Entry(cs, proceeds), Tier3Entry(ds, proceeds));
    SameTables(r.tiers[3].distributions, r'.tiers[3].distributions, cs, ds, Tier4Receives(cs, proceeds),
               Tier4Receives(ds, proceeds), Tier4Entry(cs, proceeds), Tier4Entry(ds, proceeds));
    assert r.tiers == [r.tiers[0], r.tiers[1], r.tiers[2], r.tiers[3]];
    assert r'.tiers == [r'.tiers[0], r'.tiers[1], r'.tiers[2], r'.tiers[3]];
  }

  lemma SameRemainder(cs: seq<ShareClass>, ds: seq<ShareClass>, proceeds: real)
    requires multiset(cs) == multiset(ds)
    ensures Remainder(cs, proceeds) == Remainder(ds, proceeds)
  {
    SameAfter3(cs, ds, proceeds);
    hide SumReal, After3;
    SumIgnoresOrder(CommonShares(), cs, ds);
  }

  lemma SameEntries(cs: seq<ShareClass>, ds: seq<ShareClass>, proceeds: real, c: ShareClass)
    requires multiset(cs) == multiset(ds)
    ensures Entry1Of(cs, proceeds)(c) == Entry1Of(ds, proceeds)(c)
    ensures Tier2Entry(cs, proceeds)(c) == Tier2Entry(ds, proceeds)(c)
    ensures Tier3Entry(cs, proceeds)(c) == Tier3Entry(ds, proceeds)(c)
    ensures Tier4Entry(cs, proceeds)(c) == Tier4Entry(ds, proceeds)(c)
  {
    OrderDoesNotMatter(cs, ds, proceeds, c);
    SameShares(cs, ds, proceeds, c);
    hide Tier1, Tier2, Tier4, PoolShare, Converts, Paid1, Paid2, Paid3, Paid4;
  }

  lemma SameReceivers(cs: seq<ShareClass>, ds: seq<ShareClass>, proceeds: real, c: ShareClass)
    requires multiset(cs) == multiset(ds)
    ensures Tier2Receives(cs, proceeds)(c) == Tier2Receives(ds, proceeds)(c)
    ensures ConvertsOf(cs, proceeds)(c) == ConvertsOf(ds, proceeds)(c)
    ensures Tier4Receives(cs, proceeds)(c) == Tier4Receives(ds, proceeds)(c)
  {
    OrderDoesNotMatter(cs, ds, proceeds, c);
    SameShares(cs, ds, proceeds, c);
    hide After1, PaysCommon, Converts;
  }

  lemma SameShares(cs: seq<ShareClass>, ds: seq<ShareClass>, proceeds: real, c: ShareClass)
    requires multiset(cs) == multiset(ds)
    ensures PoolShare(cs, proceeds, c) == PoolShare(ds, proceeds, c)
    ensures After1(cs, proceeds) == After1(ds, proceeds)
    ensures PaysCommon(cs, proceeds) == PaysCommon(ds, proceeds)
  {
    SameTier3(cs, ds, proceeds, c);
    SameTier1(cs, ds, proceeds);
    SameAfter3(cs, ds, proceeds);
    hide SumReal, After1, After3, PoolShare;
    SumIgnoresOrder(CommonShares(), cs, ds);
  }

  lemma SameTables(d: map<string, Distribution>, d': map<string, Distribution>, cs: seq<ShareClass>,
                   ds: seq<ShareClass>, p: ShareClass -> bool, p': ShareClass -> bool,
                   entry: ShareClass -> Distribution, entry': ShareClass -> Distribution)
    requires TableOf(d, cs, p, entry) && TableOf(d', ds, p', entry')
    requires forall c :: c in cs <==> c in ds
    requires forall c <- cs :: p(c) == p'(c) && entry(c) == entry'(c)
    ensures d == d'
  {
    forall n <- d.Keys ensures n in d' && d'[n] == d[n] {
      assert exists c <- cs :: p(c) && c.name == n;
      var c :| c in cs && p(c) && c.name == n;
    }
    forall n <- d'.Keys ensures n in d {
      assert exists c <- ds :: p'(c) && c.name == n;
      var c :| c in ds && p'(c) && c.name == n;
    }
  }

  // ----- a waterfall that hands out more than it has

  const CONVERTER: ShareClass := ShareClass("A", 90, 1.0, 1.0, false, 0.0, 1, 1.0)
  const KEEPER: ShareClass := ShareClass("B", 10, 50.0, 1.0, false, 0.0, 1, 1.0)

  lemma SumPair(w: Weight, c: ShareClass, d: ShareClass)
    ensures SumReal(w, [c, d]) == w(c) + w(d)
  {
    assert [c, d] == [c] + [d];
    assert [] + [c] == [c];
    SumRealSnoc(w, [c], d);
    SumRealSnoc(w, [], c);
  }

  lemma OverdrawnTiers(cs: seq<ShareClass>)
    requires cs == [CONVERTER, KEEPER]
    ensures Tier1(cs, 61.0, CONVERTER) == 1.0 && Tier1(cs, 61.0, KEEPER) == 50.0
    ensures After1(cs, 61.0) == 10.0
  {
    hide SumReal;
    SumPair(ClaimsAbove(1), CONVERTER, KEEPER);
    SumPair(ClaimsAt(1), CONVERTER, KEEPER);
    SumPair(Claims(), CONVERTER, KEEPER);
  }

  lemma OverdrawnPool(cs: seq<ShareClass>)
    requires cs == [CONVERTER, KEEPER]
    ensures After2(cs, 61.0) == 10.0 && Pool(cs, 61.0) == 61.0 && PoolShares(cs) == 100.0
    ensures SumReal(CommonShares(), cs) == 0.0
  {
    OverdrawnTiers(cs);
    After2Is(cs, 61.0);
    PoolIs(cs, 61.0);
    NoTier2(cs, 61.0, CONVERTER);
    NoTier2(cs, 61.0, KEEPER);
    hide SumReal, Tier1, Tier2, After1, After2, Pool, PoolShares;
    SumPair(Tier2Of(cs, 61.0), CONVERTER, KEEPER);
    SumPair(ConvertiblePaid(cs, 61.0), CONVERTER, KEEPER);
    SumPair(CommonShares(), CONVERTER, KEEPER);
    SumPair(ConvertibleShares(), CONVERTER, KEEPER);
  }

  lemma OverdrawnShares(cs: seq<ShareClass>)
    requires cs == [CONVERTER, KEEPER]
    ensures PoolShare(cs, 61.0, CONVERTER) == 54.9 && PoolShare(cs, 61.0, KEEPER) == 6.1
    ensures Converts(cs, 61.0, CONVERTER) && !Converts(cs, 61.0, KEEPER)
  {
    OverdrawnTiers(cs);
    OverdrawnPool(cs);
    hide SumReal, Tier1, After2, Pool, PoolShares;
    PoolShareIs(cs, 61.0, CONVERTER, 61.0, 100.0);
    PoolShareIs(cs, 61.0, KEEPER, 61.0, 100.0);
    hide PoolShare;
  }

  lemma OverdrawnIsReady(cs: seq<ShareClass>)
    requires cs == [CONVERTER, KEEPER]
    ensures Ready(cs) && DistinctNames(cs)
  {
    assert CONVERTER.name[0] != KEEPER.name[0];
    assert CONVERTER.IsSound() && KEEPER.IsSound();
  }

  lemma OverdrawnGain(cs: seq<ShareClass>)
    requires cs == [CONVERTER, KEEPER]
    ensures ConversionGain(cs, 61.0)(CONVERTER) == -53.9 && ConversionGain(cs, 61.0)(KEEPER) == 0.0
  {
    OverdrawnTiers(cs);
    OverdrawnShares(cs);
    hide Tier1, PoolShare, Converts;
  }

  lemma OverdrawnTotals(cs: seq<ShareClass>)
    requires cs == [CONVERTER, KEEPER]
    ensures TotalPaid(cs, 61.0, CONVERTER) == 54.9 && TotalPaid(cs, 61.0, KEEPER) == 50.0
  {
    OverdrawnTiers(cs);
    OverdrawnShares(cs);
    NoTier2(cs, 61.0, KEEPER);
    hide Tier1, Tier2, PoolShare, Converts;
  }

  /** 61 over two classes, of which one converts and the other keeps its preference, pays out 104.9. */
  lemma OverdrawnExample(cs: seq<ShareClass>)
    requires cs == [CONVERTER, KEEPER]
    ensures Ready(cs) && DistinctNames(cs)
    ensures TotalPaid(cs, 61.0, CONVERTER) == 54.9 && TotalPaid(cs, 61.0, KEEPER) == 50.0
    ensures Remainder(cs, 61.0) == -43.9
  {
    OverdrawnIsReady(cs);
    OverdrawnTotals(cs);
    OverdrawnPool(cs);
    OverdrawnGain(cs);
    After3Is(cs, 61.0);
    hide SumReal, TotalPaid, ConversionGain, After2, After3, Ready, DistinctNames;
    SumPair(ConversionGain(cs, 61.0), CONVERTER, KEEPER);
  }
}
