/** Pro-forma rounds and exits: price, new shares, option pool, ownership rows, and chains of rounds. */
module Scenario {
  import opened GoBasics
  import opened Arithmetic

  datatype Row = Row(
    name: string, before: int64, percentBefore: real, after: int64, percentAfter: real, dilution: real)

  datatype Round = Round(name: string, preMoney: int64, investment: int64)

  datatype ProForma = ProForma(
    preMoney: int64, postMoney: int64, price: real, newShares: int64, poolIncrease: int64, rows: seq<Row>,
    fullyDiluted: int64, poolShares: int64)

  datatype ExitRow = ExitRow(name: string, proceeds: real, returnMultiple: real, percent: real)

  // ----- sums

  function Before(): Row -> int { (r: Row) => r.before }
  function After(): Row -> int { (r: Row) => r.after }
  function PercentAfter(): Row -> real { (r: Row) => r.percentAfter }
  function Proceeds(): ExitRow -> real { (e: ExitRow) => e.proceeds }
  function Percent(): ExitRow -> real { (e: ExitRow) => e.percent }

  /** The running int64 total of the source's loops. */
  method WrappedTotal(f: Row -> int, rows: seq<Row>) returns (total: int64)
    ensures total == Wrap64(SumInt(f, rows))
  {
    total := 0;
    for i := 0 to |rows|
      invariant total == Wrap64(SumInt(f, rows[..i]))
    {
      assert rows[..i + 1] == rows[..i] + [rows[i]];
      SumIntSnoc(f, rows[..i], rows[i]);
      WrapAdd(SumInt(f, rows[..i]), f(rows[i]));
      total := Wrap64(total + f(rows[i]));
    }
    assert rows[..|rows|] == rows;
  }

  // ----- a round

  function Total(existing: seq<Row>): int64 {
    Wrap64(SumInt(Before(), existing))
  }

  predicate Accepts(existing: seq<Row>, round: Round, percent: real) {
    round.preMoney > 0 && round.investment > 0 && existing != [] && 0.0 <= percent < 100.0 && Total(existing) > 0
  }

  function Price(round: Round, total: int64): real {
    SafeDivide(round.preMoney as real, total as real)
  }

  function NewShares(round: Round, total: int64): int64 {
    ToInt64(SafeDivide(round.investment as real, Price(round, total)))
  }

  /** p (existing + new) / (1 - p) */
  function PoolFor(p: real, outstanding: int): real {
    SafeDivide(p * outstanding as real, 1.0 - p)
  }

  /** The unrounded pool. */
  function IdealPool(percent: real, outstanding: int): real {
    if percent > 0.0 then PoolFor(percent / 100.0, outstanding) else 0.0
  }

  function PoolIncrease(percent: real, outstanding: int64): int64 {
    ToInt64(IdealPool(percent, outstanding))
  }

  function Percentage(shares: int64, total: int64): real {
    SafeDivide(shares as real, total as real) * 100.0
  }

  function Diluted(r: Row, total: int64, fullyDiluted: int64): Row {
    var pctBefore, pctAfter := Percentage(r.before, total), Percentage(r.before, fullyDiluted);
    Row(r.name, r.before, pctBefore, r.before, pctAfter, pctBefore - pctAfter)
  }

  function NewRow(name: string, shares: int64, fullyDiluted: int64): Row {
    Row(name, 0, 0.0, shares, Percentage(shares, fullyDiluted), 0.0)
  }

  function RowsAfter(existing: seq<Row>, total: int64, fullyDiluted: int64): (rows: seq<Row>)
    ensures |rows| == |existing|
  {
    if existing == [] then []
    else
      RowsAfter(existing[..|existing| - 1], total, fullyDiluted)
      + [Diluted(existing[|existing| - 1], total, fullyDiluted)]
  }

  function IssuedRows(round: Round, newShares: int64, pool: int64, fullyDiluted: int64): seq<Row> {
    [NewRow(round.name + " Investor", newShares, fullyDiluted)]
    + if pool > 0 then [NewRow("Option Pool", pool, fullyDiluted)] else []
  }

  function Modelled(existing: seq<Row>, round: Round, percent: real): ProForma {
    var total := Total(existing);
    var newShares := NewShares(round, total);
    var pool := PoolIncrease(percent, Wrap64(total + newShares));
    var fullyDiluted := Wrap64(total + newShares + pool);
    ProForma(round.preMoney, Wrap64(round.preMoney + round.investment), Price(round, total), newShares, pool,
             RowsAfter(existing, total, fullyDiluted) + IssuedRows(round, newShares, pool, fullyDiluted),
             fullyDiluted, pool)
  }

  method DilutedRows(existing: seq<Row>, total: int64, fullyDiluted: int64) returns (rows: seq<Row>)
    ensures rows == RowsAfter(existing, total, fullyDiluted)
  {
    hide Percentage;
    rows := [];
    for i := 0 to |existing|
      invariant rows == RowsAfter(existing[..i], total, fullyDiluted)
    {
      assert existing[..i + 1][..i] == existing[..i];
      var pctBefore := Percentage(existing[i].before, total);
      var pctAfter := Percentage(existing[i].before, fullyDiluted);
      rows := rows + [
        Row(existing[i].name, existing[i].before, pctBefore, existing[i].before, pctAfter, pctBefore - pctAfter)];
    }
    assert existing[..|existing|] == existing;
  }

  method PriceRound(round: Round, total: int64) returns (price: real, newShares: int64)
    requires round.preMoney > 0 && total > 0
    ensures price == Price(round, total) && newShares == NewShares(round, total)
  {
    price := round.preMoney as real / total as real;
    newShares := ToInt64(round.investment as real / price);
  }

  method ExpandPool(percent: real, outstanding: int64) returns (pool: int64)
    requires 0.0 < percent < 100.0
    ensures pool == PoolIncrease(percent, outstanding)
  {
    var pct := percent / 100.0;
    PoolForIs(pct, outstanding);
    hide ToInt64, PoolFor;
    pool := ToInt64(pct * outstanding as real / (1.0 - pct));
    PoolIncreaseIs(percent, outstanding);
  }

  lemma PoolForIs(p: real, outstanding: int)
    requires p < 1.0
    ensures PoolFor(p, outstanding) == p * outstanding as real / (1.0 - p)
  {
  }

  lemma PoolIncreaseIs(percent: real, outstanding: int64)
    requires percent > 0.0
    ensures PoolIncrease(percent, outstanding) == ToInt64(PoolFor(percent / 100.0, outstanding))
  {
    hide ToInt64, PoolFor;
  }

  lemma ModelledIs(existing: seq<Row>, round: Round, percent: real, newShares: int64, pool: int64, fullyDiluted: int64,
                   rows: seq<Row>)
    requires newShares == NewShares(round, Total(existing))
    requires pool == PoolIncrease(percent, Wrap64(Total(existing) as int + newShares as int))
    requires fullyDiluted == Wrap64(Total(existing) as int + newShares as int + pool as int)
    requires rows == RowsAfter(existing, Total(existing), fullyDiluted)
                   + IssuedRows(round, newShares, pool, fullyDiluted)
    ensures Modelled(existing, round, percent) ==
            ProForma(round.preMoney, Wrap64(round.preMoney as int + round.investment as int),
                     Price(round, Total(existing)), newShares, pool, rows, fullyDiluted, pool)
  {
    hide Price, NewShares, PoolIncrease, RowsAfter, IssuedRows, Total;
  }

  lemma NoPool(percent: real, outstanding: int64)
    requires percent <= 0.0
    ensures PoolIncrease(percent, outstanding) == 0
  {
  }

  method ModelRound(existing: seq<Row>, round: Round, percent: real) returns (r: Result<ProForma, string>)
    ensures r.Ok? <==>
            && round.preMoney > 0 && round.investment > 0 && existing != [] && 0.0 <= percent < 100.0
            && Wrap64(SumInt(Before(), existing)) > 0
    ensures r.Ok? ==> r.value == Modelled(existing, round, percent)
  {
    hide Percentage, SumInt, RowsAfter, Price, NewShares, PoolIncrease, ToInt64, Modelled;
    if round.preMoney <= 0 {
      return Err("pre_money_valuation must be positive");
    }
    if round.investment <= 0 {
      return Err("investment_amount must be positive");
    }
    if |existing| == 0 {
      return Err("existing_shares must not be empty");
    }
    if percent < 0.0 || percent >= 100.0 {
      return Err("option_pool_percent must be in [0, 100)");
    }
    var totalExisting := WrappedTotal(Before(), existing);
    if totalExisting <= 0 {
      return Err("total existing shares must be positive");
    }
    var pricePerShare, newShares := PriceRound(round, totalExisting);
    var postMoney := Wrap64(round.preMoney as int + round.investment as int);
    var outstanding := Wrap64(totalExisting as int + newShares as int);
    var optionPoolIncrease, optionPoolShares := 0, 0;
    if percent > 0.0 {
      optionPoolIncrease := ExpandPool(percent, outstanding);
      optionPoolShares := optionPoolIncrease;
    } else {
      NoPool(percent, outstanding);
    }
    WrapAdd(totalExisting as int + newShares as int, optionPoolIncrease);
    var fullyDiluted := Wrap64(outstanding as int + optionPoolIncrease as int);
    var ownership := DilutedRows(existing, totalExisting, fullyDiluted);
    ownership := ownership + [
      Row(round.name + " Investor", 0, 0.0, newShares, Percentage(newShares, fullyDiluted), 0.0)];
    if optionPoolIncrease > 0 {
      ownership := ownership + [
        Row("Option Pool", 0, 0.0, optionPoolIncrease, Percentage(optionPoolIncrease, fullyDiluted), 0.0)];
    }
    assert ownership == RowsAfter(existing, totalExisting, fullyDiluted)
                      + IssuedRows(round, newShares, optionPoolIncrease, fullyDiluted);
    ModelledIs(existing, round, percent, newShares, optionPoolIncrease, fullyDiluted, ownership);
    return Ok(ProForma(round.preMoney, postMoney, pricePerShare, newShares, optionPoolIncrease, ownership, fullyDiluted,
                       optionPoolShares));
  }

  // ----- what a round guarantees

  function IdealShares(round: Round, total: int): real {
    SafeDivide(round.investment as real * total as real, round.preMoney as real)
  }

  /** No total leaves the int64 range. */
  ghost predicate Fits(existing: seq<Row>, round: Round, percent: real) {
    var total := SumInt(Before(), existing);
    && MIN_INT64 <= total <= MAX_INT64
    && var newShares := Trunc(IdealShares(round, total));
    && total + newShares <= MAX_INT64
    && total + newShares + Trunc(IdealPool(percent, total + newShares)) <= MAX_INT64
  }

  // ----- arithmetic

  /** A pool is the target fraction p of the diluted shares, short by less than one share's worth. */
  predicate MeetsTarget(percent: real, pool: real, diluted: real) {
    var p := percent / 100.0;
    0.0 <= p * diluted - pool < 1.0 - p
  }

  /** A pool that is exactly the target fraction. */
  predicate IsTarget(percent: real, pool: real, outstanding: real) {
    var p := percent / 100.0;
    pool * (1.0 - p) == p * outstanding
  }

  lemma OnlyQuotient(n: real, k: real, x: real)
    requires k != 0.0 && n * k == x
    ensures n == x / k
  {
  }

  lemma Cancel(x: real, k: real, t: real)
    requires t != 0.0 && IsProduct(t * k, x, t)
    ensures x == k
  {
  }

  lemma Cross(n: real, price: real, tot: real, pre: real, inv: real)
    requires price * tot == pre && n * price == inv
    ensures n * pre == inv * tot
  {
    assert n * (price * tot) == (n * price) * tot;
  }

  lemma QuotientOfQuotient(inv: real, tot: real, pre: real)
    requires inv > 0.0 && tot > 0.0 && pre > 0.0
    ensures pre / tot > 0.0 && pre / tot * tot == pre
    ensures inv / (pre / tot) == inv * tot / pre > 0.0
    ensures inv * tot / pre * (pre / tot) == inv
  {
    Divide(pre, tot);
    var price := pre / tot;
    Divide(inv, price);
    var n := inv / price;
    Cross(n, price, tot, pre, inv);
    OnlyQuotient(n, pre, inv * tot);
  }

  /** Dividing the investment by the price is the ideal share count. */
  lemma IdealSharesAre(round: Round, total: int64)
    requires round.preMoney > 0 && round.investment > 0 && total > 0
    ensures Price(round, total) > 0.0 && IsProduct(round.preMoney as real, Price(round, total), total as real)
    ensures NewShares(round, total) == ToInt64(IdealShares(round, total)) && IdealShares(round, total) > 0.0
    ensures IsProduct(round.investment as real, IdealShares(round, total), Price(round, total))
  {
    QuotientOfQuotient(round.investment as real, total as real, round.preMoney as real);
    assert SafeDivide(round.investment as real, Price(round, total)) == IdealShares(round, total);
    hide SafeDivide, ToInt64;
  }

  lemma IdealPoolIs(percent: real, outstanding: int)
    requires 0.0 <= percent < 100.0 && outstanding >= 0
    ensures IdealPool(percent, outstanding) >= 0.0
    ensures IsTarget(percent, IdealPool(percent, outstanding), outstanding as real)
  {
    if percent > 0.0 {
      PoolForIsTarget(percent / 100.0, outstanding);
    }
  }

  lemma PoolForIsTarget(p: real, outstanding: int)
    requires 0.0 < p < 1.0 && outstanding >= 0
    ensures PoolFor(p, outstanding) >= 0.0
    ensures PoolFor(p, outstanding) * (1.0 - p) == p * outstanding as real
  {
    if outstanding == 0 {
      OnlyQuotient(0.0, 1.0 - p, p * outstanding as real);
    } else {
      PositiveProduct(p, outstanding as real);
      Divide(p * outstanding as real, 1.0 - p);
    }
  }

  lemma PositiveProduct(x: real, y: real)
    requires x > 0.0 && y > 0.0
    ensures x * y > 0.0
  {
  }

  /** The totals the round works with are the true ones. */
  lemma RoundTotals(existing: seq<Row>, round: Round, percent: real)
    requires Accepts(existing, round, percent) && Fits(existing, round, percent)
    ensures var pf, total := Modelled(existing, round, percent), SumInt(Before(), existing);
      && pf.newShares == Trunc(IdealShares(round, total)) >= 0
      && pf.poolIncrease == Trunc(IdealPool(percent, total + pf.newShares)) >= 0
      && pf.fullyDiluted == total + pf.newShares + pf.poolIncrease
      && pf.fullyDiluted >= total == Total(existing) > 0
      && pf.price == Price(round, total)
  {
    hide SumInt, RowsAfter, IssuedRows, Price, SafeDivide, IdealShares, IdealPool;
    var total := Total(existing);
    IdealSharesAre(round, total);
    var n := NewShares(round, total);
    assert n == Trunc(IdealShares(round, total));
    IdealPoolIs(percent, total as int + n as int);
  }

  /** The price values the company at its pre-money valuation, and the investor gets as many whole shares as the money
        buys. */
  lemma InvestorGetsWholeShares(existing: seq<Row>, round: Round, percent: real)
    requires Accepts(existing, round, percent) && Fits(existing, round, percent)
    ensures var pf := Modelled(existing, round, percent);
      && pf.price > 0.0 && IsProduct(round.preMoney as real, pf.price, SumInt(Before(), existing) as real)
      && BuysWhole(pf.newShares as real, pf.price, round.investment as real)
  {
    RoundTotals(existing, round, percent);
    IdealSharesAre(round, Total(existing));
    hide SumInt, Modelled, IdealShares, IdealPool, Price, Fits, BuysWhole, IsProduct;
    var pf, ideal := Modelled(existing, round, percent), IdealShares(round, Total(existing));
    WholePart(ideal, pf.price, round.investment as real, pf.newShares as real);
  }

  /** The pool is the target fraction of the fully diluted shares, short by less than one share's worth. */
  lemma PoolMeetsTarget(existing: seq<Row>, round: Round, percent: real)
    requires Accepts(existing, round, percent) && Fits(existing, round, percent)
    ensures var pf := Modelled(existing, round, percent);
      MeetsTarget(percent, pf.poolIncrease as real, pf.fullyDiluted as real)
  {
    RoundTotals(existing, round, percent);
    hide SumInt, Modelled, IdealPool, IdealShares, Fits, MeetsTarget, IsTarget;
    var pf := Modelled(existing, round, percent);
    var outstanding := SumInt(Before(), existing) + pf.newShares;
    IdealPoolIs(percent, outstanding);
    var ideal := IdealPool(percent, outstanding);
    PoolGap(percent, outstanding as real, pf.poolIncrease as real, ideal, pf.fullyDiluted as real);
  }

  lemma PoolGap(percent: real, outstanding: real, pool: real, ideal: real, diluted: real)
    requires 0.0 <= percent < 100.0 && pool <= ideal < pool + 1.0 && IsTarget(percent, ideal, outstanding)
    requires diluted == outstanding + pool
    ensures MeetsTarget(percent, pool, diluted)
  {
    var p := percent / 100.0;
    var x := Part(ideal - pool, 1.0 - p);
    assert p * diluted - pool == p * outstanding + p * pool - pool == x;
  }

  // ----- ownership rows

  lemma {:induction false} ExistingRows(existing: seq<Row>, total: int64, fullyDiluted: int64)
    ensures var rows := RowsAfter(existing, total, fullyDiluted);
      forall i :: 0 <= i < |existing| ==> rows[i] == Diluted(existing[i], total, fullyDiluted)
    ensures SumInt(After(), RowsAfter(existing, total, fullyDiluted)) == SumInt(Before(), existing)
  {
    hide Percentage;
    if existing != [] {
      var n := |existing| - 1;
      ExistingRows(existing[..n], total, fullyDiluted);
      SumIntSnoc(After(), RowsAfter(existing[..n], total, fullyDiluted), Diluted(existing[n], total, fullyDiluted));
    }
  }

  /** Each row's percentage is its share of the fully diluted shares. */
  ghost predicate Consistent(rows: seq<Row>, fullyDiluted: int64) {
    forall r <- rows :: r.percentAfter == Percentage(r.after, fullyDiluted)
  }

  lemma {:induction false} PercentagesAddUp(rows: seq<Row>, fullyDiluted: int64)
    requires Consistent(rows, fullyDiluted) && fullyDiluted > 0
    ensures IsProduct(SumInt(After(), rows) as real * 100.0, SumReal(PercentAfter(), rows), fullyDiluted as real)
  {
    hide Percentage;
    if rows != [] {
      var n := |rows| - 1;
      PercentagesAddUp(rows[..n], fullyDiluted);
      assert rows[n] in rows;
      PercentageIs(rows[n].after, fullyDiluted);
      Distribute(SumReal(PercentAfter(), rows[..n]), rows[n].percentAfter, fullyDiluted as real);
    }
  }

  lemma PercentageIs(shares: int64, total: int64)
    requires total > 0
    ensures Percentage(shares, total) * total as real == shares as real * 100.0
  {
    var q := shares as real / total as real;
    assert q * total as real == shares as real;
    assert (q * 100.0) * total as real == (q * total as real) * 100.0;
  }

  lemma Distribute(x: real, y: real, k: real)
    ensures (x + y) * k == x * k + y * k
  {
  }

  lemma AfterRound(existing: seq<Row>, round: Round, percent: real)
    ensures var pf := Modelled(existing, round, percent);
      && Consistent(pf.rows, pf.fullyDiluted)
      && |pf.rows| > |existing|
      && (forall i :: 0 <= i < |existing| ==> pf.rows[i] == Diluted(existing[i], Total(existing), pf.fullyDiluted))
      && SumInt(After(), pf.rows) == SumInt(Before(), existing) + pf.newShares
                                     + if pf.poolIncrease > 0 then pf.poolIncrease else 0
  {
    hide Percentage, NewShares, PoolIncrease, Price, Total, SumInt, RowsAfter, IssuedRows, Diluted, NewRow, Wrap64;
    var pf := Modelled(existing, round, percent);
    var rows := RowsAfter(existing, Total(existing), pf.fullyDiluted);
    ExistingRows(existing, Total(existing), pf.fullyDiluted);
    DilutedIsConsistent(existing, rows, Total(existing), pf.fullyDiluted);
    IssuedRowsAre(round, rows, pf.newShares, pf.poolIncrease, pf.fullyDiluted);
  }

  lemma DilutedIsConsistent(existing: seq<Row>, rows: seq<Row>, total: int64, fullyDiluted: int64)
    requires |rows| == |existing|
    requires forall i :: 0 <= i < |rows| ==> rows[i] == Diluted(existing[i], total, fullyDiluted)
    ensures Consistent(rows, fullyDiluted)
  {
    hide Percentage;
  }

  lemma IssuedRowsAre(round: Round, rows: seq<Row>, newShares: int64, pool: int64, fullyDiluted: int64)
    requires Consistent(rows, fullyDiluted)
    ensures var all := rows + IssuedRows(round, newShares, pool, fullyDiluted);
      && |all| > |rows| && Consistent(all, fullyDiluted)
      && SumInt(After(), all) == SumInt(After(), rows) + newShares + if pool > 0 then pool else 0
  {
    hide Percentage, SumInt;
    var investor := NewRow(round.name + " Investor", newShares, fullyDiluted);
    SumIntSnoc(After(), rows, investor);
    if pool > 0 {
      SumIntSnoc(After(), rows + [investor], NewRow("Option Pool", pool, fullyDiluted));
      assert rows + IssuedRows(round, newShares, pool, fullyDiluted)
          == (rows + [investor]) + [NewRow("Option Pool", pool, fullyDiluted)];
    } else {
      assert rows + IssuedRows(round, newShares, pool, fullyDiluted) == rows + [investor];
    }
  }

  /** The rows account for every fully diluted share and for all of the ownership. */
  lemma RowsAccountForAllShares(existing: seq<Row>, round: Round, percent: real)
    requires Accepts(existing, round, percent) && Fits(existing, round, percent)
    ensures var pf := Modelled(existing, round, percent);
      SumInt(After(), pf.rows) == pf.fullyDiluted && SumReal(PercentAfter(), pf.rows) == 100.0
  {
    AfterRound(existing, round, percent);
    RoundTotals(existing, round, percent);
    hide SumInt, SumReal, Modelled, Fits, IdealPool, IdealShares, Percentage, IsProduct;
    var pf := Modelled(existing, round, percent);
    PercentagesAddUp(pf.rows, pf.fullyDiluted);
    assert pf.fullyDiluted > 0 && SumInt(After(), pf.rows) == pf.fullyDiluted;
    Cancel(SumReal(PercentAfter(), pf.rows), 100.0, pf.fullyDiluted as real);
  }

  // ----- chains of rounds

  /** The holders going into the next round hold what the last one left them. */
  function Carried(rows: seq<Row>): (next: seq<Row>)
    ensures |next| == |rows|
    ensures forall i :: 0 <= i < |rows| ==> next[i] == rows[i].(before := rows[i].after)
  {
    if rows == [] then [] else Carried(rows[..|rows| - 1]) + [rows[|rows| - 1].(before := rows[|rows| - 1].after)]
  }

  lemma {:induction false} CarriedTotal(rows: seq<Row>)
    ensures SumInt(Before(), Carried(rows)) == SumInt(After(), rows)
  {
    if rows != [] {
      var n := |rows| - 1;
      CarriedTotal(rows[..n]);
      SumIntSnoc(Before(), Carried(rows[..n]), rows[n].(before := rows[n].after));
    }
  }

  datatype Plan = Plan(round: Round, percent: real)

  function Next(holders: seq<Row>, plan: Plan): seq<Row> {
    Carried(Modelled(holders, plan.round, plan.percent).rows)
  }

  /** Every round of the chain is accepted and stays in range. */
  ghost predicate Proceeds64(holders: seq<Row>, plans: seq<Plan>)
    decreases |plans|
  {
    plans == [] ||
    (Accepts(holders, plans[0].round, plans[0].percent) && Fits(holders, plans[0].round, plans[0].percent)
     && Proceeds64(Next(holders, plans[0]), plans[1..]))
  }

  function AfterRounds(holders: seq<Row>, plans: seq<Plan>): seq<Row>
    decreases |plans|
  {
    if plans == [] then holders else AfterRounds(Next(holders, plans[0]), plans[1..])
  }

  lemma NextKeepsHolders(holders: seq<Row>, plan: Plan)
    requires Accepts(holders, plan.round, plan.percent) && Fits(holders, plan.round, plan.percent)
    ensures |holders| <= |Next(holders, plan)|
    ensures forall i :: 0 <= i < |holders| ==>
      Next(holders, plan)[i].before == holders[i].before && Next(holders, plan)[i].name == holders[i].name
    ensures SumInt(Before(), Next(holders, plan)) >= SumInt(Before(), holders) > 0
  {
    AfterRound(holders, plan.round, plan.percent);
    RoundTotals(holders, plan.round, plan.percent);
    hide SumInt, Modelled, Fits, IdealPool, IdealShares, Percentage;
    CarriedTotal(Modelled(holders, plan.round, plan.percent).rows);
  }

  /** Over any chain of rounds, earlier holders keep their places and their shares, and the total never shrinks. */
  lemma {:induction false} RoundsKeepHolders(holders: seq<Row>, plans: seq<Plan>)
    requires Proceeds64(holders, plans)
    ensures var last := AfterRounds(holders, plans);
      && |holders| <= |last|
      && (forall i :: 0 <= i < |holders| ==> last[i].before == holders[i].before && last[i].name == holders[i].name)
      && SumInt(Before(), holders) <= SumInt(Before(), last)
    decreases |plans|
  {
    if plans != [] {
      NextKeepsHolders(holders, plans[0]);
      RoundsKeepHolders(Next(holders, plans[0]), plans[1..]);
    }
  }

  function Stake(holders: seq<Row>, i: nat): real
    requires i < |holders|
  {
    SafeDivide(holders[i].before as real, SumInt(Before(), holders) as real)
  }

  /** No chain of rounds raises an earlier holder's stake. */
  lemma RoundsOnlyDilute(holders: seq<Row>, plans: seq<Plan>, i: nat)
    requires Proceeds64(holders, plans) && i < |holders|
    requires SumInt(Before(), holders) > 0 && holders[i].before >= 0
    ensures i < |AfterRounds(holders, plans)| && Stake(AfterRounds(holders, plans), i) <= Stake(holders, i)
  {
    RoundsKeepHolders(holders, plans);
    hide SumInt, AfterRounds, Proceeds64, SafeDivide;
    LargerDivisor(holders[i].before as real, SumInt(Before(), holders) as real,
                SumInt(Before(), AfterRounds(holders, plans)) as real);
  }

  /** No chain of rounds changes the ratio between the stakes of two earlier holders. */
  lemma RoundsKeepRatios(holders: seq<Row>, plans: seq<Plan>, i: nat, j: nat)
    requires Proceeds64(holders, plans) && i < |holders| && j < |holders| && SumInt(Before(), holders) > 0
    ensures i < |AfterRounds(holders, plans)| && j < |AfterRounds(holders, plans)|
    ensures SameRatio(Stake(AfterRounds(holders, plans), i), Stake(AfterRounds(holders, plans), j),
                      Stake(holders, i), Stake(holders, j))
  {
    RoundsKeepHolders(holders, plans);
    hide SumInt, AfterRounds, Proceeds64, SafeDivide, SameRatio;
    CrossRatio(holders[i].before as real, holders[j].before as real, SumInt(Before(), holders) as real,
               SumInt(Before(), AfterRounds(holders, plans)) as real);
  }

  /** a : b is c : d */
  predicate SameRatio(a: real, b: real, c: real, d: real) {
    a * d == b * c
  }

  lemma CrossRatio(x: real, y: real, t: real, t': real)
    requires t > 0.0 && t' > 0.0
    ensures SameRatio(SafeDivide(x, t'), SafeDivide(y, t'), SafeDivide(x, t), SafeDivide(y, t))
  {
    var a, b := 1.0 / t, 1.0 / t';
    assert x / t == x * a && y / t == y * a && x / t' == x * b && y / t' == y * b;
    assert (x * b) * (y * a) == (y * b) * (x * a);
  }

  // ----- exits

  function ExitOf(r: Row, total: int64, valuation: int64): ExitRow {
    var pct := SafeDivide(r.after as real, total as real);
    ExitRow(r.name, pct * valuation as real, 0.0, pct * 100.0)
  }

  function ExitRows(rows: seq<Row>, total: int64, valuation: int64): seq<ExitRow> {
    if rows == [] then []
    else
      ExitRows(rows[..|rows| - 1], total, valuation)
      + if rows[|rows| - 1].after == 0 then [] else [ExitOf(rows[|rows| - 1], total, valuation)]
  }

  /** A pro-rata exit; holders without shares are left out. */
  method ModelExit(rows: seq<Row>, valuation: int64) returns (r: Result<seq<ExitRow>, string>)
    ensures r.Ok? <==> valuation > 0 && rows != [] && Wrap64(SumInt(After(), rows)) > 0
    ensures r.Ok? ==> r.value == ExitRows(rows, Wrap64(SumInt(After(), rows)), valuation)
  {
    hide SumInt, Wrap64, ExitOf, SafeDivide;
    if valuation <= 0 {
      return Err("exit_valuation must be positive");
    }
    if |rows| == 0 {
      return Err("shares must not be empty");
    }
    var total := WrappedTotal(After(), rows);
    if total <= 0 {
      return Err("total shares must be positive");
    }
    var exits: seq<ExitRow> := [];
    assert rows[..0] == [];
    for i := 0 to |rows|
      invariant exits == ExitRows(rows[..i], total, valuation)
    {
      assert rows[..i + 1][..i] == rows[..i];
      if rows[i].after == 0 {
        continue;
      }
      var pct := SafeDivide(rows[i].after as real, total as real);
      ExitOfIs(rows[i], total, valuation, pct);
      exits := exits + [ExitRow(rows[i].name, pct * valuation as real, 0.0, pct * 100.0)];
    }
    assert rows[..|rows|] == rows;
    return Ok(exits);
  }

  lemma ExitOfIs(r: Row, total: int64, valuation: int64, pct: real)
    requires pct == SafeDivide(r.after as real, total as real)
    ensures ExitOf(r, total, valuation) == ExitRow(r.name, pct * valuation as real, 0.0, pct * 100.0)
  {
    hide SafeDivide;
  }

  lemma {:induction false} ExitProceeds(rows: seq<Row>, total: int64, valuation: int64)
    requires total > 0
    ensures InProportion(SumReal(Proceeds(), ExitRows(rows, total, valuation)), total as real,
                         SumInt(After(), rows) as real, valuation as real)
  {
    if rows == [] {
      NothingProceeds(valuation, total);
    } else {
      var n := |rows| - 1;
      ExitProceeds(rows[..n], total, valuation);
      ExitShare(rows[n], total, valuation);
      OneMoreExit(rows, total, valuation);
      hide ExitOf, SumReal, SumInt, ExitRows, InProportion;
      AddProducts(SumInt(After(), rows[..n]) as real, rows[n].after as real, valuation as real,
                  SumReal(Proceeds(), ExitRows(rows[..n], total, valuation)),
                  ExitOf(rows[n], total, valuation).proceeds, total as real);
    }
  }

  lemma NothingProceeds(valuation: int64, total: int64)
    ensures InProportion(SumReal(Proceeds(), ExitRows([], total, valuation)), total as real,
                         SumInt(After(), []) as real, valuation as real)
  {
  }

  /** Proceeds x of a total t are what a shares earn of v: x : v is a : t. */
  predicate InProportion(x: real, t: real, a: real, v: real) {
    x * t == a * v
  }

  lemma WholeShare(x: real, v: real, t: real)
    requires t != 0.0 && InProportion(x, t, t, v)
    ensures x == v
  {
  }

  lemma OneMoreExit(rows: seq<Row>, total: int64, valuation: int64)
    requires rows != [] && total > 0
    ensures SumReal(Proceeds(), ExitRows(rows, total, valuation)) ==
            SumReal(Proceeds(), ExitRows(rows[..|rows| - 1], total, valuation))
            + ExitOf(rows[|rows| - 1], total, valuation).proceeds
    ensures SumInt(After(), rows) == SumInt(After(), rows[..|rows| - 1]) + rows[|rows| - 1].after
  {
    var n := |rows| - 1;
    var before, e := ExitRows(rows[..n], total, valuation), ExitOf(rows[n], total, valuation);
    ExitShare(rows[n], total, valuation);
    hide ExitOf;
    SumRealSnoc(Proceeds(), before, e);
    assert before + [] == before;
  }

  lemma AddProducts(a: real, b: real, v: real, x: real, y: real, t: real)
    requires InProportion(x, t, a, v) && InProportion(y, t, b, v)
    ensures InProportion(x + y, t, a + b, v)
  {
  }

  /** A holder's proceeds are in proportion to its shares. */
  lemma ExitShare(r: Row, total: int64, valuation: int64)
    requires total > 0
    ensures InProportion(ExitOf(r, total, valuation).proceeds, total as real, r.after as real, valuation as real)
    ensures r.after == 0 ==> ExitOf(r, total, valuation).proceeds == 0.0
  {
    var q := r.after as real / total as real;
    assert q * total as real == r.after as real;
    assert (q * valuation as real) * total as real == (q * total as real) * valuation as real;
  }

  /** An exit pays out the whole valuation, no more and no less, although it leaves out the holders without shares. */
  lemma ExitPaysEverything(rows: seq<Row>, valuation: int64)
    requires 0 < SumInt(After(), rows) <= MAX_INT64
    ensures SumReal(Proceeds(), ExitRows(rows, SumInt(After(), rows), valuation)) == valuation as real
  {
    hide SumInt, SumReal, ExitRows, InProportion;
    var total := SumInt(After(), rows);
    ExitProceeds(rows, total, valuation);
    WholeShare(SumReal(Proceeds(), ExitRows(rows, total, valuation)), valuation as real, total as real);
  }

  // ----- the rows of a round and of an exit, field by field

  function PercentBefore(): Row -> real { (r: Row) => r.percentBefore }

  lemma DilutedRow(r: Row, total: int64, fullyDiluted: int64)
    requires 0 < total <= fullyDiluted
    ensures var d := Diluted(r, total, fullyDiluted);
      && d.name == r.name && d.before == d.after == r.before
      && IsProduct(r.before as real * 100.0, d.percentBefore, total as real)
      && IsProduct(r.before as real * 100.0, d.percentAfter, fullyDiluted as real)
      && d.dilution == d.percentBefore - d.percentAfter && (r.before >= 0 ==> d.dilution >= 0.0)
  {
    PercentageIs(r.before, total);
    PercentageIs(r.before, fullyDiluted);
    hide Percentage;
    if r.before >= 0 { PercentageFalls(r.before, total, fullyDiluted); }
  }

  /** A holder's row: its name and shares as before, its part of the shares before and after the round in per cent, and
      the drop between the two as its dilution. */
  lemma HolderRow(existing: seq<Row>, round: Round, percent: real, i: nat)
    requires Accepts(existing, round, percent) && Fits(existing, round, percent) && i < |existing|
    ensures var pf := Modelled(existing, round, percent);
      && i < |pf.rows|
      && var r := pf.rows[i];
      && r.name == existing[i].name && r.before == r.after == existing[i].before
      && IsProduct(r.before as real * 100.0, r.percentBefore, SumInt(Before(), existing) as real)
      && IsProduct(r.before as real * 100.0, r.percentAfter, pf.fullyDiluted as real)
      && r.dilution == r.percentBefore - r.percentAfter && (r.before >= 0 ==> r.dilution >= 0.0)
  {
    hide Modelled, Diluted, SumInt, Total, IdealShares, IdealPool, Price, Fits, Accepts, IsProduct, Consistent;
    AfterRound(existing, round, percent);
    RoundTotals(existing, round, percent);
    DilutedRow(existing[i], Total(existing), Modelled(existing, round, percent).fullyDiluted);
  }

  lemma PercentageFalls(shares: int64, less: int64, more: int64)
    requires shares >= 0 && 0 < less <= more
    ensures Percentage(shares, more) <= Percentage(shares, less)
  {
    LargerDivisor(shares as real, less as real, more as real);
    hide SafeDivide;
  }

  lemma RowsOf(existing: seq<Row>, round: Round, percent: real)
    ensures var pf := Modelled(existing, round, percent);
      && pf.rows == RowsAfter(existing, Total(existing), pf.fullyDiluted)
                  + IssuedRows(round, pf.newShares, pf.poolIncrease, pf.fullyDiluted)
      && pf.poolShares == pf.poolIncrease
  {
    hide Total, NewShares, PoolIncrease, Price, RowsAfter, IssuedRows, Wrap64;
  }

  /** A row without a past: no shares before the round, and nothing to dilute. */
  predicate IsNew(r: Row, name: string, shares: int64, fullyDiluted: int64) {
    && r.name == name && r.after == shares && r.before == 0 && r.percentBefore == 0.0 && r.dilution == 0.0
    && IsProduct(shares as real * 100.0, r.percentAfter, fullyDiluted as real)
  }

  lemma NewRowIs(name: string, shares: int64, fullyDiluted: int64)
    requires fullyDiluted > 0
    ensures IsNew(NewRow(name, shares, fullyDiluted), name, shares, fullyDiluted)
  {
    PercentageIs(shares, fullyDiluted);
    hide Percentage;
  }

  /** The rows a round adds: the investor's with the new shares and, if the pool grows, the pool's. */
  lemma NewRows(existing: seq<Row>, round: Round, percent: real)
    requires Accepts(existing, round, percent) && Fits(existing, round, percent)
    ensures var pf, n := Modelled(existing, round, percent), |existing|;
      && |pf.rows| == n + (if pf.poolIncrease > 0 then 2 else 1)
      && IsNew(pf.rows[n], round.name + " Investor", pf.newShares, pf.fullyDiluted)
      && (pf.poolIncrease > 0 ==> IsNew(pf.rows[n + 1], "Option Pool", pf.poolIncrease, pf.fullyDiluted))
      && pf.poolShares == pf.poolIncrease
  {
    hide Modelled, NewRow, RowsAfter, SumInt, Total, IdealShares, IdealPool, Price, Fits, Accepts, IsProduct;
    RowsOf(existing, round, percent);
    RoundTotals(existing, round, percent);
    var pf := Modelled(existing, round, percent);
    NewRowIs(round.name + " Investor", pf.newShares, pf.fullyDiluted);
    NewRowIs("Option Pool", pf.poolIncrease, pf.fullyDiluted);
  }

  /** The holders' percentages before the round add up to 100. */
  lemma PercentagesBefore(existing: seq<Row>, round: Round, percent: real)
    requires Accepts(existing, round, percent) && Fits(existing, round, percent)
    ensures |existing| <= |Modelled(existing, round, percent).rows|
    ensures SumReal(PercentBefore(), Modelled(existing, round, percent).rows[..|existing|]) == 100.0
  {
    hide Modelled, SumInt, SumReal, RowsAfter, IssuedRows, Fits, IsProduct, IdealShares, IdealPool, Price, Accepts;
    RowsOf(existing, round, percent);
    RoundTotals(existing, round, percent);
    var pf, total := Modelled(existing, round, percent), Total(existing);
    assert pf.rows[..|existing|] == RowsAfter(existing, total, pf.fullyDiluted);
    BeforeAddsUp(existing, total, pf.fullyDiluted);
    Cancel(SumReal(PercentBefore(), pf.rows[..|existing|]), 100.0, total as real);
  }

  lemma {:induction false} BeforeAddsUp(existing: seq<Row>, total: int64, fullyDiluted: int64)
    requires total > 0
    ensures IsProduct(SumInt(Before(), existing) as real * 100.0,
                      SumReal(PercentBefore(), RowsAfter(existing, total, fullyDiluted)), total as real)
  {
    if existing == [] {
    } else {
      var n := |existing| - 1;
      BeforeAddsUp(existing[..n], total, fullyDiluted);
      OneMoreBefore(existing, total, fullyDiluted);
      PercentageIs(existing[n].before, total);
      hide *;
      AddHolder(SumInt(Before(), existing[..n]), existing[n].before,
                SumReal(PercentBefore(), RowsAfter(existing[..n], total, fullyDiluted)),
                Percentage(existing[n].before, total), total as real);
    }
  }

  lemma OneMoreBefore(existing: seq<Row>, total: int64, fullyDiluted: int64)
    requires existing != []
    ensures var n := |existing| - 1;
      && SumInt(Before(), existing) == SumInt(Before(), existing[..n]) + existing[n].before
      && SumReal(PercentBefore(), RowsAfter(existing, total, fullyDiluted)) ==
         SumReal(PercentBefore(), RowsAfter(existing[..n], total, fullyDiluted)) + Percentage(existing[n].before, total)
  {
    hide Percentage;
    var n := |existing| - 1;
    SumRealSnoc(PercentBefore(), RowsAfter(existing[..n], total, fullyDiluted),
                Diluted(existing[n], total, fullyDiluted));
  }

  lemma AddHolder(shares: int, more: int, percent: real, morePercent: real, total: real)
    requires IsProduct(shares as real * 100.0, percent, total) && morePercent * total == more as real * 100.0
    ensures IsProduct((shares + more) as real * 100.0, percent + morePercent, total)
  {
    Distribute(percent, morePercent, total);
  }

  /** The post-money valuation is the pre-money valuation and the investment. */
  lemma PostMoney(existing: seq<Row>, round: Round, percent: real)
    ensures var pf := Modelled(existing, round, percent);
      && pf.preMoney == round.preMoney && pf.postMoney == Wrap64(round.preMoney + round.investment)
  {
    hide Wrap64, Total, NewShares, PoolIncrease, Price, RowsAfter, IssuedRows;
  }

  function HasShares(): Row -> int { (r: Row) => if r.after != 0 then 1 else 0 }

  /** A holder's exit: its part of the shares in per cent, the same part of the valuation, and no multiple. */
  predicate IsExitOf(e: ExitRow, r: Row, total: int64, valuation: int64) {
    && e.name == r.name && e.returnMultiple == 0.0
    && IsProduct(r.after as real * 100.0, e.percent, total as real)
    && InProportion(e.proceeds, total as real, r.after as real, valuation as real)
  }

  lemma ExitIs(r: Row, total: int64, valuation: int64)
    requires total > 0
    ensures IsExitOf(ExitOf(r, total, valuation), r, total, valuation)
  {
    ExitShare(r, total, valuation);
    PercentageIs(r.after, total);
    hide InProportion;
  }

  /** Exactly the holders with shares have a row, in their order. */
  lemma {:induction false} ExitRowsAre(rows: seq<Row>, total: int64, valuation: int64) returns (holders: seq<Row>)
    requires total > 0
    ensures |holders| == |ExitRows(rows, total, valuation)| == SumInt(HasShares(), rows)
    ensures forall i :: 0 <= i < |holders| ==>
      holders[i] in rows && holders[i].after != 0
      && IsExitOf(ExitRows(rows, total, valuation)[i], holders[i], total, valuation)
    ensures forall r <- rows :: r.after != 0 ==> r in holders
  {
    hide ExitOf, IsExitOf;
    if rows == [] {
      holders := [];
    } else {
      var n := |rows| - 1;
      holders := ExitRowsAre(rows[..n], total, valuation);
      assert rows == rows[..n] + [rows[n]];
      if rows[n].after != 0 {
        ExitIs(rows[n], total, valuation);
        holders := holders + [rows[n]];
      }
    }
  }
}
