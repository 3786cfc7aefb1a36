/** Converting SAFEs and convertible notes: the best price, the shares it buys, and the term it is said to come from. */
module Conversion {
  import opened GoBasics
  import opened Arithmetic

  /** Nanoseconds since Go's zero time, which is zero. */
  type Time = int

  const DAY: int := 24 * 3600 * 1_000_000_000

  datatype Safe = Safe(
    id: string, investor: string, amount: real, valuationCap: real, discount: real, kind: string)

  datatype Note = Note(
    id: string, investor: string, principal: real, interestRate: real, maturity: Time, valuationCap: real,
    discount: real, issued: Time)

  datatype Trigger = Trigger(roundPrice: real, preMoneyShares: int64, postMoneyShares: int64, conversionDate: Time)

  datatype Conversion = Conversion(
    id: string, kind: string, investor: string, invested: real, converted: real, shares: int64, price: real,
    effectiveDiscount: real, shareClass: string, term: string)

  // ----- the best price

  /** The lowest positive price of the three, zero if none is positive. */
  ghost predicate IsBest(best: real, capPrice: real, discountPrice: real, roundPrice: real) {
    if best == 0.0 then capPrice <= 0.0 && discountPrice <= 0.0 && roundPrice <= 0.0
    else
      && best > 0.0 && (best == capPrice || best == discountPrice || best == roundPrice)
      && (capPrice > 0.0 ==> best <= capPrice)
      && (discountPrice > 0.0 ==> best <= discountPrice)
      && (roundPrice > 0.0 ==> best <= roundPrice)
  }

  function Better(best: real, p: real): real {
    if p > 0.0 && (best == 0.0 || p < best) then p else best
  }

  function BestPrice(capPrice: real, discountPrice: real, roundPrice: real): (best: real)
    ensures IsBest(best, capPrice, discountPrice, roundPrice)
  {
    Better(Better(Better(0.0, capPrice), discountPrice), roundPrice)
  }

  method SelectBestPrice(capPrice: real, discountPrice: real, roundPrice: real) returns (best: real)
    ensures best == BestPrice(capPrice, discountPrice, roundPrice)
  {
    best := 0.0;
    var candidates := [capPrice, discountPrice, roundPrice];
    for i := 0 to |candidates|
      invariant i == 0 ==> best == 0.0
      invariant i == 1 ==> best == Better(0.0, capPrice)
      invariant i == 2 ==> best == Better(Better(0.0, capPrice), discountPrice)
      invariant i == 3 ==> best == BestPrice(capPrice, discountPrice, roundPrice)
    {
      var p := candidates[i];
      if p > 0.0 && (best == 0.0 || p < best) {
        best := p;
      }
    }
  }

  // ----- pricing an instrument

  /** The cap divided by the shares it is measured against; none without a cap. */
  function CapPrice(valuationCap: real, shares: int64): real {
    if valuationCap > 0.0 && shares > 0 then valuationCap / shares as real else 0.0
  }

  function DiscountPrice(discount: real, roundPrice: real): real {
    if discount > 0.0 && roundPrice > 0.0 then roundPrice * (1.0 - discount / 100.0) else 0.0
  }

  /** The term the result names. */
  function Term(capPrice: real, discountPrice: real): string {
    if capPrice > 0.0 && discountPrice > 0.0 then if capPrice <= discountPrice then "cap" else "discount"
    else if capPrice > 0.0 then "cap"
    else if discountPrice > 0.0 then "discount"
    else "mfn"
  }

  function EffectiveDiscount(price: real, roundPrice: real): real {
    if roundPrice > 0.0 then (1.0 - price / roundPrice) * 100.0 else 0.0
  }

  function SharesFor(amount: real, price: real): int64
    requires price > 0.0
  {
    ToInt64((amount / price).Floor as real)
  }

  function CapBase(safe: Safe, trigger: Trigger): int64 {
    if safe.kind == "post_money" then trigger.postMoneyShares else trigger.preMoneyShares
  }

  function SafePrice(safe: Safe, trigger: Trigger): real {
    BestPrice(CapPrice(safe.valuationCap, CapBase(safe, trigger)), DiscountPrice(safe.discount, trigger.roundPrice),
              trigger.roundPrice)
  }

  /** Why a SAFE cannot be converted, if it cannot. */
  function SafeError(safe: Safe, trigger: Trigger): Option<string> {
    if safe.amount <= 0.0 then Some("investment_amount must be positive")
    else if trigger.roundPrice <= 0.0 && safe.valuationCap <= 0.0 then
      Some("either round_price_per_share or valuation_cap must be positive")
    else if safe.valuationCap > 0.0 && CapBase(safe, trigger) <= 0 then
      Some(if safe.kind == "post_money" then "post_money_shares required for post-money SAFE conversion"
           else "pre_money_shares required for SAFE conversion")
    else None
  }

  function SafeConversion(safe: Safe, trigger: Trigger): Conversion
    requires SafePrice(safe, trigger) > 0.0
  {
    var capPrice := CapPrice(safe.valuationCap, CapBase(safe, trigger));
    var discountPrice := DiscountPrice(safe.discount, trigger.roundPrice);
    var price := SafePrice(safe, trigger);
    Conversion(safe.id, "safe", safe.investor, safe.amount, safe.amount, SharesFor(safe.amount, price), price,
               EffectiveDiscount(price, trigger.roundPrice), "SAFE Preferred", Term(capPrice, discountPrice))
  }

  /** A SAFE without an error has a price: "could not determine a valid conversion price" is never reported. */
  lemma SafeHasPrice(safe: Safe, trigger: Trigger)
    requires SafeError(safe, trigger).None?
    ensures SafePrice(safe, trigger) > 0.0
  {
    if safe.valuationCap > 0.0 {
      CapPriceIsPositive(safe.valuationCap, CapBase(safe, trigger));
    }
  }

  lemma CapPriceIsPositive(valuationCap: real, shares: int64)
    requires valuationCap > 0.0 && shares > 0
    ensures CapPrice(valuationCap, shares) > 0.0 && CapPrice(valuationCap, shares) * shares as real == valuationCap
  {
  }

  lemma CapPriceIs(valuationCap: real, shares: int64)
    ensures valuationCap > 0.0 && shares > 0 ==> CapPrice(valuationCap, shares) == valuationCap / shares as real
    ensures valuationCap <= 0.0 ==> CapPrice(valuationCap, shares) == 0.0
  {
  }

  method PriceDiscount(discount: real, roundPrice: real) returns (price: real)
    ensures price == DiscountPrice(discount, roundPrice)
  {
    price := 0.0;
    if discount > 0.0 && roundPrice > 0.0 {
      price := roundPrice * (1.0 - discount / 100.0);
    }
  }

  method NameTerm(capPrice: real, discountPrice: real) returns (term: string)
    ensures term == Term(capPrice, discountPrice)
  {
    if capPrice > 0.0 && discountPrice > 0.0 {
      if capPrice <= discountPrice {
        term := "cap";
      } else {
        term := "discount";
      }
    } else if capPrice > 0.0 {
      term := "cap";
    } else if discountPrice > 0.0 {
      term := "discount";
    } else {
      term := "mfn";
    }
  }

  method ConvertSAFE(safe: Safe, trigger: Trigger) returns (r: Result<Conversion, string>)
    ensures match SafeError(safe, trigger)
            case Some(message) => r == Err(message)
            case None => SafePrice(safe, trigger) > 0.0 && r == Ok(SafeConversion(safe, trigger))
    ensures r.Ok? ==> IsPricedBy(r.value, safe.valuationCap, safe.discount, trigger.roundPrice,
                                 if safe.kind == "post_money" then trigger.postMoneyShares else trigger.preMoneyShares)
    ensures r.Ok? ==> IsSafeOf(r.value, safe)
  {
    SafeFigures(safe, trigger);
    hide IsPricedBy, IsSafeOf, CapPrice, DiscountPrice, BestPrice, EffectiveDiscount, SharesFor, Term;
    if safe.amount <= 0.0 {
      return Err("investment_amount must be positive");
    }
    if trigger.roundPrice <= 0.0 && safe.valuationCap <= 0.0 {
      return Err("either round_price_per_share or valuation_cap must be positive");
    }
    CapPriceIs(safe.valuationCap, CapBase(safe, trigger));
    var capPrice := 0.0;
    if safe.valuationCap > 0.0 {
      if safe.kind == "post_money" {
        if trigger.postMoneyShares <= 0 {
          return Err("post_money_shares required for post-money SAFE conversion");
        }
        capPrice := safe.valuationCap / trigger.postMoneyShares as real;
      } else {
        if trigger.preMoneyShares <= 0 {
          return Err("pre_money_shares required for SAFE conversion");
        }
        capPrice := safe.valuationCap / trigger.preMoneyShares as real;
      }
    }
    var discountPrice := PriceDiscount(safe.discount, trigger.roundPrice);
    SafeHasPrice(safe, trigger);
    var effectivePrice := SelectBestPrice(capPrice, discountPrice, trigger.roundPrice);
    if effectivePrice <= 0.0 {
      return Err("could not determine a valid conversion price");
    }
    var term := NameTerm(capPrice, discountPrice);
    var shares := SharesFor(safe.amount, effectivePrice);
    return Ok(Conversion(safe.id, "safe", safe.investor, safe.amount, safe.amount, shares, effectivePrice,
                         EffectiveDiscount(effectivePrice, trigger.roundPrice), "SAFE Preferred", term));
  }

  // ----- notes

  function Sub(t: Time, u: Time): int {
    var d := t - u;
    if d < MIN_INT64 then MIN_INT64 else if d > MAX_INT64 then MAX_INT64 else d
  }

  /** The nanoseconds a note has run: from issue to conversion, or to maturity if the trigger has no date. */
  function Elapsed(note: Note, trigger: Trigger): int {
    Sub(if trigger.conversionDate == 0 then note.maturity else trigger.conversionDate, note.issued)
  }

  /** Simple interest over the days elapsed. */
  function AccruedInterest(note: Note, trigger: Trigger): (interest: real)
    ensures note.principal > 0.0 ==> interest >= 0.0
  {
    if note.interestRate <= 0.0 then 0.0
    else
      var days := Elapsed(note, trigger) as real / DAY as real;
      if days <= 0.0 then 0.0 else Interest(note.principal, note.interestRate, days)
  }

  function Interest(principal: real, rate: real, days: real): (interest: real)
    ensures principal > 0.0 && rate > 0.0 && days > 0.0 ==> interest > 0.0
  {
    var perYear := principal * (rate / 100.0);
    assert principal > 0.0 && rate > 0.0 ==> perYear > 0.0;
    var years := days / 365.0;
    assert perYear > 0.0 && years > 0.0 ==> perYear * years > 0.0;
    perYear * years
  }

  lemma PerYear(principal: real, rate: real, days: real, day: real)
    ensures Interest(principal, rate, days) * (36500.0 * day) == principal * rate * (days * day)
  {
    var perYear := principal * (rate / 100.0);
    assert perYear * 100.0 == principal * rate;
    assert Interest(principal, rate, days) * 36500.0 == perYear * 100.0 * days;
    hide Interest;
    var interest := Interest(principal, rate, days);
    assert interest * (36500.0 * day) == (interest * 36500.0) * day;
    assert principal * rate * (days * day) == (principal * rate * days) * day;
  }

  lemma InterestOverTime(note: Note, trigger: Trigger)
    ensures var t := Elapsed(note, trigger);
      if note.interestRate > 0.0 && t > 0
      then AccruedInterest(note, trigger) * (36500.0 * DAY as real) == note.principal * note.interestRate * t as real
      else AccruedInterest(note, trigger) == 0.0
  {
    var t := Elapsed(note, trigger);
    var days := t as real / DAY as real;
    assert days * DAY as real == t as real;
    assert t > 0 <==> days > 0.0;
    hide Elapsed;
    if note.interestRate > 0.0 && t > 0 {
      PerYear(note.principal, note.interestRate, days, DAY as real);
    }
    hide Interest;
  }

  /** Interest runs exactly while there is a rate and time has passed, from the issue to the conversion or, without a
      conversion date, to maturity; and it is to the principal as rate x time is to 100 x 365 days. A time beyond the
      range of a duration is cut to the longest duration. */
  lemma InterestIsSimple(note: Note, trigger: Trigger)
    ensures var until := if trigger.conversionDate == 0 then note.maturity else trigger.conversionDate;
      var t := if until - note.issued > MAX_INT64 then MAX_INT64 else until - note.issued;
      if note.interestRate > 0.0 && until > note.issued
      then AccruedInterest(note, trigger) * (100.0 * 365.0 * 86_400_000_000_000.0) ==
           note.principal * note.interestRate * t as real
      else AccruedInterest(note, trigger) == 0.0
  {
    InterestOverTime(note, trigger);
    hide AccruedInterest;
  }

  function NotePrice(note: Note, trigger: Trigger): real {
    BestPrice(CapPrice(note.valuationCap, trigger.preMoneyShares), DiscountPrice(note.discount, trigger.roundPrice),
              trigger.roundPrice)
  }

  function NoteError(note: Note, trigger: Trigger): Option<string> {
    if note.principal <= 0.0 then Some("principal_amount must be positive")
    else if trigger.roundPrice <= 0.0 && note.valuationCap <= 0.0 then
      Some("either round_price_per_share or valuation_cap must be positive")
    else if note.valuationCap > 0.0 && trigger.preMoneyShares <= 0 then
      Some("pre_money_shares required for note conversion with cap")
    else None
  }

  function NoteConversion(note: Note, trigger: Trigger): Conversion
    requires NotePrice(note, trigger) > 0.0
  {
    var capPrice := CapPrice(note.valuationCap, trigger.preMoneyShares);
    var discountPrice := DiscountPrice(note.discount, trigger.roundPrice);
    var price, amount := NotePrice(note, trigger), note.principal + AccruedInterest(note, trigger);
    Conversion(note.id, "note", note.investor, note.principal, amount, SharesFor(amount, price), price,
               EffectiveDiscount(price, trigger.roundPrice), "Note Preferred", Term(capPrice, discountPrice))
  }

  lemma NoteHasPrice(note: Note, trigger: Trigger)
    requires NoteError(note, trigger).None?
    ensures NotePrice(note, trigger) > 0.0
  {
    if note.valuationCap > 0.0 {
      CapPriceIsPositive(note.valuationCap, trigger.preMoneyShares);
    }
  }

  method ConvertNote(note: Note, trigger: Trigger) returns (r: Result<Conversion, string>)
    ensures match NoteError(note, trigger)
            case Some(message) => r == Err(message)
            case None => NotePrice(note, trigger) > 0.0 && r == Ok(NoteConversion(note, trigger))
    ensures r.Ok? ==>
      IsPricedBy(r.value, note.valuationCap, note.discount, trigger.roundPrice, trigger.preMoneyShares)
    ensures r.Ok? ==> IsNoteOf(r.value, note, trigger)
  {
    NoteFigures(note, trigger);
    hide IsPricedBy, IsNoteOf, CapPrice, DiscountPrice, BestPrice, EffectiveDiscount, SharesFor, Term, AccruedInterest;
    if note.principal <= 0.0 {
      return Err("principal_amount must be positive");
    }
    if trigger.roundPrice <= 0.0 && note.valuationCap <= 0.0 {
      return Err("either round_price_per_share or valuation_cap must be positive");
    }
    var convertedAmount := note.principal + AccruedInterest(note, trigger);
    CapPriceIs(note.valuationCap, trigger.preMoneyShares);
    var capPrice := 0.0;
    if note.valuationCap > 0.0 {
      if trigger.preMoneyShares <= 0 {
        return Err("pre_money_shares required for note conversion with cap");
      }
      capPrice := note.valuationCap / trigger.preMoneyShares as real;
    }
    var discountPrice := PriceDiscount(note.discount, trigger.roundPrice);
    NoteHasPrice(note, trigger);
    var effectivePrice := SelectBestPrice(capPrice, discountPrice, trigger.roundPrice);
    if effectivePrice <= 0.0 {
      return Err("could not determine a valid conversion price");
    }
    var term := NameTerm(capPrice, discountPrice);
    var shares := SharesFor(convertedAmount, effectivePrice);
    return Ok(Conversion(note.id, "note", note.investor, note.principal, convertedAmount, shares, effectivePrice,
                         EffectiveDiscount(effectivePrice, trigger.roundPrice), "Note Preferred", term));
  }

  // ----- what a conversion guarantees

  /** The price is positive and never above the round price or the cap price. */
  lemma PriceIsBest(capPrice: real, discountPrice: real, roundPrice: real, price: real)
    requires price == BestPrice(capPrice, discountPrice, roundPrice) > 0.0
    ensures roundPrice > 0.0 ==> price <= roundPrice
    ensures capPrice > 0.0 ==> price <= capPrice
    ensures discountPrice > 0.0 ==> price <= discountPrice
    ensures forall p :: IsBest(p, capPrice, discountPrice, roundPrice) ==> p == price
  {
  }

  lemma SharesAreWhole(amount: real, price: real)
    requires amount >= 0.0 && price > 0.0 && (amount / price).Floor <= MAX_INT64
    ensures SharesFor(amount, price) >= 0 && BuysWhole(SharesFor(amount, price) as real, price, amount)
  {
    var q := amount / price;
    assert q >= 0.0 && IsProduct(amount, q, price);
    assert SharesFor(amount, price) == q.Floor;
    WholePart(q, price, amount, q.Floor as real);
  }

  /** A lower price never buys fewer shares. */
  lemma LowerPriceBuysMore(amount: real, low: real, high: real)
    requires amount >= 0.0 && 0.0 < low <= high && (amount / low).Floor <= MAX_INT64
    ensures SharesFor(amount, high) <= SharesFor(amount, low)
  {
    LargerDivisor(amount, low, high);
  }

  lemma Sign(k: real, price: real) returns (x: real)
    requires price > 0.0
    ensures x == price * k
    ensures k > 0.0 <==> x > 0.0
    ensures k < 1.0 <==> x < price
  {
    x := price * k;
    var y := Positive(1.0 - k, price);
    var z := Positive(k, price);
    assert y == price - x;
  }

  lemma Positive(k: real, price: real) returns (x: real)
    requires price > 0.0
    ensures x == price * k && (k > 0.0 <==> x > 0.0)
  {
    x := price * k;
  }

  lemma DiscountPriceFalls(less: real, more: real, roundPrice: real)
    requires 0.0 <= less <= more < 100.0 && roundPrice > 0.0
    ensures more > 0.0 ==> 0.0 < DiscountPrice(more, roundPrice) < roundPrice
    ensures less > 0.0 ==> DiscountPrice(more, roundPrice) <= DiscountPrice(less, roundPrice)
  {
    var x := Sign(1.0 - more / 100.0, roundPrice);
    var y := Sign(1.0 - less / 100.0, roundPrice);
    var z := Sign((more - less) / 100.0, roundPrice);
    assert z == y - x;
  }

  /** Below 100 a higher discount never raises the price. */
  lemma HigherDiscountLowersPrice(capPrice: real, less: real, more: real, roundPrice: real)
    requires 0.0 <= less <= more < 100.0
    requires BestPrice(capPrice, DiscountPrice(less, roundPrice), roundPrice) > 0.0
    ensures 0.0 < BestPrice(capPrice, DiscountPrice(more, roundPrice), roundPrice)
            <= BestPrice(capPrice, DiscountPrice(less, roundPrice), roundPrice)
  {
    if roundPrice > 0.0 {
      DiscountPriceFalls(less, more, roundPrice);
    }
    hide DiscountPrice;
  }

  /** A discount of 100 or more is ignored: the price is the one without any discount. */
  lemma FullDiscountIsIgnored(capPrice: real, discount: real, roundPrice: real)
    requires discount >= 100.0
    ensures BestPrice(capPrice, DiscountPrice(discount, roundPrice), roundPrice) ==
            BestPrice(capPrice, DiscountPrice(0.0, roundPrice), roundPrice)
  {
    if roundPrice > 0.0 {
      var x := Sign(1.0 - discount / 100.0, roundPrice);
    }
  }

  /** So at 100 the price jumps up again: with a round price of 50 and no cap from 0.5 to 50, and 100 shares become
        one. */
  lemma DiscountOfHundredCostsShares()
    ensures BestPrice(0.0, DiscountPrice(99.0, 50.0), 50.0) == 0.5 && SharesFor(50.0, 0.5) == 100
    ensures BestPrice(0.0, DiscountPrice(100.0, 50.0), 50.0) == 50.0 && SharesFor(50.0, 50.0) == 1
  {
    assert 50.0 / 0.5 == 100.0 && 50.0 / 50.0 == 1.0;
  }

  /** Raising a discount never raises the price exactly as long as it stays below 100, or the discount was no help:
      there was none, it was already ignored, or the cap was at least as good. */
  lemma RaisingDiscountIff(capPrice: real, less: real, more: real, roundPrice: real)
    requires 0.0 <= less <= more
    ensures BestPrice(capPrice, DiscountPrice(more, roundPrice), roundPrice)
            <= BestPrice(capPrice, DiscountPrice(less, roundPrice), roundPrice)
            <==> more < 100.0 || less == 0.0 || less >= 100.0 || roundPrice <= 0.0
                 || 0.0 < capPrice <= DiscountPrice(less, roundPrice)
  {
    if roundPrice > 0.0 {
      if more < 100.0 {
        DiscountPriceFalls(less, more, roundPrice);
      } else {
        FullDiscountIsIgnored(capPrice, more, roundPrice);
        if less >= 100.0 {
          FullDiscountIsIgnored(capPrice, less, roundPrice);
        } else {
          DiscountPriceFalls(less, less, roundPrice);
          assert DiscountPrice(0.0, roundPrice) == 0.0;
        }
      }
      hide DiscountPrice;
    }
  }

  /** A lower positive cap never raises the price. */
  lemma LowerCapLowersPrice(low: real, high: real, shares: int64, discountPrice: real, roundPrice: real)
    requires 0.0 < low <= high && shares > 0
    ensures 0.0 < BestPrice(CapPrice(low, shares), discountPrice, roundPrice)
            <= BestPrice(CapPrice(high, shares), discountPrice, roundPrice)
  {
    CapPriceIsPositive(low, shares);
    CapPriceIsPositive(high, shares);
    assert CapPrice(low, shares) <= CapPrice(high, shares);
    hide CapPrice;
  }

  /** The price of the term a conversion names. */
  function NamedPrice(term: string, capPrice: real, discountPrice: real, roundPrice: real): real {
    if term == "cap" then capPrice else if term == "discount" then discountPrice else roundPrice
  }

  /** The named term is the one that set the price, except when a cap above the round price is the only term. */
  lemma TermIsHonestIff(valuationCap: real, shares: int64, discount: real, roundPrice: real)
    requires (valuationCap > 0.0 && shares > 0) || roundPrice > 0.0
    ensures var capPrice, discountPrice := CapPrice(valuationCap, shares), DiscountPrice(discount, roundPrice);
      BestPrice(capPrice, discountPrice, roundPrice) ==
        NamedPrice(Term(capPrice, discountPrice), capPrice, discountPrice, roundPrice)
      <==> !(capPrice > roundPrice > 0.0 && !(0.0 < discount < 100.0))
  {
    if roundPrice > 0.0 {
      DiscountPricePositiveIff(discount, roundPrice);
    }
    if valuationCap > 0.0 && shares > 0 {
      CapPriceIsPositive(valuationCap, shares);
    }
    TermsDiffer();
    hide DiscountPrice, CapPrice;
  }

  /** A cap price of 10 over a round price of 5 without a discount: the price is the round price, the named term the
        cap. */
  lemma MisnamedTermExample()
    ensures CapPrice(1000.0, 100) == 10.0 && DiscountPrice(0.0, 5.0) == 0.0
    ensures BestPrice(10.0, 0.0, 5.0) == 5.0 && Term(10.0, 0.0) == "cap"
    ensures BestPrice(10.0, 0.0, 5.0) != NamedPrice(Term(10.0, 0.0), 10.0, 0.0, 5.0)
  {
  }

  lemma TermsDiffer()
    ensures "cap" != "discount" && "cap" != "mfn" && "discount" != "mfn"
  {
    assert "cap"[0] == 'c' && "discount"[0] == 'd' && "mfn"[0] == 'm';
  }

  lemma DiscountPricePositiveIff(discount: real, roundPrice: real)
    requires roundPrice > 0.0
    ensures DiscountPrice(discount, roundPrice) > 0.0 <==> 0.0 < discount < 100.0
    ensures DiscountPrice(discount, roundPrice) > 0.0 ==> DiscountPrice(discount, roundPrice) < roundPrice
  {
    if 0.0 < discount < 100.0 {
      DiscountPriceFalls(discount, discount, roundPrice);
    } else if discount >= 100.0 {
      var x := Sign(1.0 - discount / 100.0, roundPrice);
    }
  }

  // ----- a conversion in its instrument's own figures

  /** The price a discount gives, as long as it gives one. */
  predicate Discounts(discount: real, roundPrice: real) {
    0.0 < discount < 100.0 && roundPrice > 0.0
  }

  /** The round price less a discount in per cent. */
  function Discounted(discount: real, roundPrice: real): real {
    roundPrice * (1.0 - discount / 100.0)
  }

  /** What the shares are worth at a price. */
  function Valuation(price: real, shares: int64): real {
    price * shares as real
  }

  /** The price is the least that the cap over the base shares, the discounted round price and the round price offer,
        and the named term is the cap's or the discount's, whichever is the lower of the two. */
  ghost predicate IsPricedBy(c: Conversion, valuationCap: real, discount: real, roundPrice: real, base: int64) {
    var discounted := Discounted(discount, roundPrice);
    && c.price > 0.0
    && (valuationCap > 0.0 ==> base > 0 && Valuation(c.price, base) <= valuationCap)
    && (Discounts(discount, roundPrice) ==> c.price <= discounted)
    && (roundPrice > 0.0 ==> c.price <= roundPrice)
    // nothing offered is lower, and the price is one of the offers
    && (Valuation(c.price, base) == valuationCap > 0.0
        || (Discounts(discount, roundPrice) && c.price == discounted) || (c.price == roundPrice > 0.0))
    // the cap sets the price exactly if neither the discount nor the round offers less
    && (valuationCap > 0.0 ==> (Valuation(c.price, base) == valuationCap <==>
          && !(Discounts(discount, roundPrice) && Valuation(discounted, base) < valuationCap)
          && !(roundPrice > 0.0 && Valuation(roundPrice, base) < valuationCap)))
    // the effective discount is the price's distance from the round price, in per cent
    && (if roundPrice > 0.0 then c.price == Discounted(c.effectiveDiscount, roundPrice) else c.effectiveDiscount == 0.0)
    && c.term == (
      if valuationCap > 0.0 && !(Discounts(discount, roundPrice) && Valuation(discounted, base) < valuationCap)
      then "cap"
      else if Discounts(discount, roundPrice) then "discount" else "mfn")
    && c.shares == ToInt64((c.converted / c.price).Floor as real)
  }

  predicate IsSafeOf(c: Conversion, safe: Safe) {
    && c.id == safe.id && c.investor == safe.investor && c.kind == "safe" && c.shareClass == "SAFE Preferred"
    && c.invested == c.converted == safe.amount
  }

  predicate IsNoteOf(c: Conversion, note: Note, trigger: Trigger) {
    && c.id == note.id && c.investor == note.investor && c.kind == "note" && c.shareClass == "Note Preferred"
    && c.invested == note.principal && c.converted == note.principal + AccruedInterest(note, trigger)
  }

  /** Which SAFEs are refused, and with what message. */
  lemma SafeErrors(safe: Safe, trigger: Trigger)
    ensures safe.amount <= 0.0 ==> SafeError(safe, trigger) == Some("investment_amount must be positive")
    ensures safe.amount > 0.0 && trigger.roundPrice <= 0.0 && safe.valuationCap <= 0.0 ==>
      SafeError(safe, trigger) == Some("either round_price_per_share or valuation_cap must be positive")
    ensures safe.amount > 0.0 && safe.valuationCap > 0.0 ==>
      if safe.kind == "post_money" then
        trigger.postMoneyShares <= 0 <==>
          SafeError(safe, trigger) == Some("post_money_shares required for post-money SAFE conversion")
      else
        trigger.preMoneyShares <= 0 <==>
          SafeError(safe, trigger) == Some("pre_money_shares required for SAFE conversion")
    ensures SafeError(safe, trigger).None? <==>
            && safe.amount > 0.0 && (trigger.roundPrice > 0.0 || safe.valuationCap > 0.0)
            && (safe.valuationCap > 0.0 && safe.kind == "post_money" ==> trigger.postMoneyShares > 0)
            && (safe.valuationCap > 0.0 && safe.kind != "post_money" ==> trigger.preMoneyShares > 0)
  {
  }

  /** Which notes are refused, and with what message. */
  lemma NoteErrors(note: Note, trigger: Trigger)
    ensures note.principal <= 0.0 ==> NoteError(note, trigger) == Some("principal_amount must be positive")
    ensures note.principal > 0.0 && trigger.roundPrice <= 0.0 && note.valuationCap <= 0.0 ==>
      NoteError(note, trigger) == Some("either round_price_per_share or valuation_cap must be positive")
    ensures note.principal > 0.0 && note.valuationCap > 0.0 ==>
      (trigger.preMoneyShares <= 0 <==>
         NoteError(note, trigger) == Some("pre_money_shares required for note conversion with cap"))
    ensures NoteError(note, trigger).None? <==>
            && note.principal > 0.0 && (trigger.roundPrice > 0.0 || note.valuationCap > 0.0)
            && (note.valuationCap > 0.0 ==> trigger.preMoneyShares > 0)
  {
  }

  lemma SafeFigures(safe: Safe, trigger: Trigger)
    ensures SafeError(safe, trigger).None? ==>
      && SafePrice(safe, trigger) > 0.0
      && var c := SafeConversion(safe, trigger);
      && IsSafeOf(c, safe)
      && IsPricedBy(c, safe.valuationCap, safe.discount, trigger.roundPrice,
                    if safe.kind == "post_money" then trigger.postMoneyShares else trigger.preMoneyShares)
  {
    hide IsPricedBy, BestPrice, CapPrice, DiscountPrice, EffectiveDiscount, SharesFor, Term;
    if SafeError(safe, trigger).None? {
      SafeHasPrice(safe, trigger);
      PricedBy(SafeConversion(safe, trigger), safe.valuationCap, safe.discount, trigger.roundPrice,
               if safe.kind == "post_money" then trigger.postMoneyShares else trigger.preMoneyShares);
    }
  }

  lemma NoteFigures(note: Note, trigger: Trigger)
    ensures NoteError(note, trigger).None? ==>
      && NotePrice(note, trigger) > 0.0
      && var c := NoteConversion(note, trigger);
      && IsNoteOf(c, note, trigger)
      && IsPricedBy(c, note.valuationCap, note.discount, trigger.roundPrice, trigger.preMoneyShares)
  {
    hide IsPricedBy, BestPrice, CapPrice, DiscountPrice, EffectiveDiscount, SharesFor, Term, AccruedInterest;
    if NoteError(note, trigger).None? {
      NoteHasPrice(note, trigger);
      PricedBy(NoteConversion(note, trigger), note.valuationCap, note.discount, trigger.roundPrice,
               trigger.preMoneyShares);
    }
  }

  /** The comparisons of a pricing, with the products that stand for the prices times the base shares. */
  lemma LeastOffer(valuationCap: real, capPrice: real, discountPrice: real, roundPrice: real, price: real,
                   priceBase: real, discountBase: real, roundBase: real)
    requires price == BestPrice(capPrice, discountPrice, roundPrice) > 0.0
    requires valuationCap > 0.0 ==> capPrice > 0.0
    requires valuationCap <= 0.0 ==> capPrice == 0.0
    requires valuationCap > 0.0 ==>
      && (priceBase < valuationCap <==> price < capPrice) && (priceBase == valuationCap <==> price == capPrice)
      && (discountPrice > 0.0 ==> (discountBase < valuationCap <==> discountPrice < capPrice))
      && (roundBase < valuationCap <==> roundPrice < capPrice)
    ensures valuationCap > 0.0 ==> priceBase <= valuationCap
    ensures discountPrice > 0.0 ==> price <= discountPrice
    ensures roundPrice > 0.0 ==> price <= roundPrice
    ensures priceBase == valuationCap > 0.0 || discountPrice == price || price == roundPrice
    ensures valuationCap > 0.0 ==> (priceBase == valuationCap <==>
      !(discountPrice > 0.0 && discountBase < valuationCap) && !(roundPrice > 0.0 && roundBase < valuationCap))
    ensures Term(capPrice, discountPrice) == (
      if valuationCap > 0.0 && !(discountPrice > 0.0 && discountBase < valuationCap) then "cap"
      else if discountPrice > 0.0 then "discount" else "mfn")
  {
    TermsDiffer();
  }

  lemma PricedBy(c: Conversion, valuationCap: real, discount: real, roundPrice: real, base: int64)
    requires valuationCap > 0.0 ==> base > 0
    requires var capPrice, discountPrice := CapPrice(valuationCap, base), DiscountPrice(discount, roundPrice);
      && c.price == BestPrice(capPrice, discountPrice, roundPrice) > 0.0
      && c.shares == SharesFor(c.converted, c.price)
      && c.effectiveDiscount == EffectiveDiscount(c.price, roundPrice) && c.term == Term(capPrice, discountPrice)
    ensures IsPricedBy(c, valuationCap, discount, roundPrice, base)
  {
    hide CapPrice, DiscountPrice, EffectiveDiscount, SharesFor, BestPrice, Term, Discounts, Discounted, Valuation;
    var capPrice, discountPrice := CapPrice(valuationCap, base), DiscountPrice(discount, roundPrice);
    var discounted := Discounted(discount, roundPrice);
    DiscountsIff(discount, roundPrice);
    SharesForIs(c.converted, c.price);
    EffectiveDiscountIs(c.price, roundPrice);
    CapPriceIs(valuationCap, base);
    if valuationCap > 0.0 {
      CapPriceIsPositive(valuationCap, base);
      CapAgainst(c.price, capPrice, base, valuationCap);
      CapAgainst(discounted, capPrice, base, valuationCap);
      CapAgainst(roundPrice, capPrice, base, valuationCap);
    }
    LeastOffer(valuationCap, capPrice, discountPrice, roundPrice, c.price, Valuation(c.price, base),
               Valuation(discounted, base), Valuation(roundPrice, base));
  }

  lemma DiscountsIff(discount: real, roundPrice: real)
    ensures Discounts(discount, roundPrice) <==> DiscountPrice(discount, roundPrice) > 0.0
    ensures Discounts(discount, roundPrice) ==>
      DiscountPrice(discount, roundPrice) == Discounted(discount, roundPrice)
  {
    if roundPrice > 0.0 { DiscountPricePositiveIff(discount, roundPrice); }
  }

  lemma SharesForIs(amount: real, price: real)
    requires price > 0.0
    ensures SharesFor(amount, price) == ToInt64((amount / price).Floor as real)
  {
  }

  lemma CapAgainst(price: real, capPrice: real, base: int64, valuationCap: real)
    requires base > 0 && capPrice * base as real == valuationCap
    ensures Valuation(price, base) < valuationCap <==> price < capPrice
    ensures Valuation(price, base) == valuationCap <==> price == capPrice
  {
    var x := Positive(if price < capPrice then capPrice - price else price - capPrice, base as real);
    assert x == if price < capPrice then valuationCap - price * base as real else price * base as real - valuationCap;
  }

  lemma EffectiveDiscountIs(price: real, roundPrice: real)
    ensures roundPrice > 0.0 ==> price == Discounted(EffectiveDiscount(price, roundPrice), roundPrice)
    ensures roundPrice <= 0.0 ==> EffectiveDiscount(price, roundPrice) == 0.0
  {
    if roundPrice > 0.0 {
      var q := price / roundPrice;
      assert q * roundPrice == price;
      assert 1.0 - EffectiveDiscount(price, roundPrice) / 100.0 == q;
    }
  }

  // ----- shares of whole conversions

  /** The share count of a conversion is in range. */
  predicate InRange(c: Conversion) {
    c.price > 0.0 && (c.converted / c.price).Floor <= MAX_INT64
  }

  /** A higher discount below 100 never costs a SAFE shares. */
  lemma SafeGainsFromDiscount(safe: Safe, more: real, trigger: Trigger)
    requires SafeError(safe, trigger).None? && 0.0 <= safe.discount <= more < 100.0
    ensures var safe' := safe.(discount := more);
      && SafePrice(safe, trigger) > 0.0 && SafePrice(safe', trigger) > 0.0
      && (InRange(SafeConversion(safe', trigger)) ==>
            SafeConversion(safe, trigger).shares <= SafeConversion(safe', trigger).shares)
  {
    SafeHasPrice(safe, trigger);
    var safe' := safe.(discount := more);
    var capPrice := CapPrice(safe.valuationCap, CapBase(safe, trigger));
    HigherDiscountLowersPrice(capPrice, safe.discount, more, trigger.roundPrice);
    hide SharesFor, DiscountPrice, CapPrice, BestPrice;
    FewerForMore(safe.amount, SafePrice(safe', trigger), SafePrice(safe, trigger));
  }

  /** A lower positive cap never costs a SAFE shares. */
  lemma SafeGainsFromLowerCap(safe: Safe, low: real, trigger: Trigger)
    requires SafeError(safe, trigger).None? && 0.0 < low <= safe.valuationCap
    ensures var safe' := safe.(valuationCap := low);
      && SafePrice(safe, trigger) > 0.0 && SafePrice(safe', trigger) > 0.0
      && (InRange(SafeConversion(safe', trigger)) ==>
            SafeConversion(safe, trigger).shares <= SafeConversion(safe', trigger).shares)
  {
    SafeHasPrice(safe, trigger);
    var safe' := safe.(valuationCap := low);
    var discountPrice := DiscountPrice(safe.discount, trigger.roundPrice);
    LowerCapLowersPrice(low, safe.valuationCap, CapBase(safe, trigger), discountPrice, trigger.roundPrice);
    hide SharesFor, DiscountPrice, CapPrice, BestPrice;
    FewerForMore(safe.amount, SafePrice(safe', trigger), SafePrice(safe, trigger));
  }

  /** A higher discount below 100 never costs a note shares. */
  lemma NoteGainsFromDiscount(note: Note, more: real, trigger: Trigger)
    requires NoteError(note, trigger).None? && 0.0 <= note.discount <= more < 100.0
    ensures var note' := note.(discount := more);
      && NotePrice(note, trigger) > 0.0 && NotePrice(note', trigger) > 0.0
      && (InRange(NoteConversion(note', trigger)) ==>
            NoteConversion(note, trigger).shares <= NoteConversion(note', trigger).shares)
  {
    NoteHasPrice(note, trigger);
    var note' := note.(discount := more);
    var capPrice := CapPrice(note.valuationCap, trigger.preMoneyShares);
    HigherDiscountLowersPrice(capPrice, note.discount, more, trigger.roundPrice);
    SameInterest(note, note', trigger);
    hide SharesFor, DiscountPrice, CapPrice, BestPrice, AccruedInterest;
    FewerForMore(note.principal + AccruedInterest(note, trigger), NotePrice(note', trigger), NotePrice(note, trigger));
  }

  /** A lower positive cap never costs a note shares. */
  lemma NoteGainsFromLowerCap(note: Note, low: real, trigger: Trigger)
    requires NoteError(note, trigger).None? && 0.0 < low <= note.valuationCap
    ensures var note' := note.(valuationCap := low);
      && NotePrice(note, trigger) > 0.0 && NotePrice(note', trigger) > 0.0
      && (InRange(NoteConversion(note', trigger)) ==>
            NoteConversion(note, trigger).shares <= NoteConversion(note', trigger).shares)
  {
    NoteHasPrice(note, trigger);
    var note' := note.(valuationCap := low);
    var discountPrice := DiscountPrice(note.discount, trigger.roundPrice);
    LowerCapLowersPrice(low, note.valuationCap, trigger.preMoneyShares, discountPrice, trigger.roundPrice);
    SameInterest(note, note', trigger);
    hide SharesFor, DiscountPrice, CapPrice, BestPrice, AccruedInterest;
    FewerForMore(note.principal + AccruedInterest(note, trigger), NotePrice(note', trigger), NotePrice(note, trigger));
  }

  lemma SameInterest(note: Note, note': Note, trigger: Trigger)
    requires note' == note.(discount := note'.discount, valuationCap := note'.valuationCap)
    ensures AccruedInterest(note', trigger) == AccruedInterest(note, trigger)
  {
    hide Interest;
  }

  lemma FewerForMore(amount: real, low: real, high: real)
    requires amount >= 0.0 && 0.0 < low <= high
    ensures (amount / low).Floor <= MAX_INT64 ==> SharesFor(amount, high) <= SharesFor(amount, low)
  {
    if (amount / low).Floor <= MAX_INT64 {
      LowerPriceBuysMore(amount, low, high);
    }
  }

  // ----- converting everything

  function Paid(): Conversion -> real { (c: Conversion) => c.shares as real * c.price }
  function Converted(): Conversion -> real { (c: Conversion) => c.converted }

  /** The first instrument that cannot be converted, by position: SAFEs first, then notes. */
  predicate FailsFirst(safes: seq<Safe>, notes: seq<Note>, trigger: Trigger, i: nat) {
    && i < |safes| + |notes|
    && (forall k :: 0 <= k < i && k < |safes| ==> SafeError(safes[k], trigger).None?)
    && (forall k :: 0 <= k < i - |safes| ==> NoteError(notes[k], trigger).None?)
    && if i < |safes| then SafeError(safes[i], trigger).Some? else NoteError(notes[i - |safes|], trigger).Some?
  }

  /** The error an event reports for the instrument that fails. */
  function Failure(safes: seq<Safe>, notes: seq<Note>, trigger: Trigger, i: nat): string
    requires FailsFirst(safes, notes, trigger, i)
  {
    if i < |safes| then "convert SAFE " + safes[i].id + ": " + SafeError(safes[i], trigger).value
    else "convert note " + notes[i - |safes|].id + ": " + NoteError(notes[i - |safes|], trigger).value
  }

  predicate IsConversionOf(c: Conversion, safes: seq<Safe>, notes: seq<Note>, trigger: Trigger, i: nat)
    requires i < |safes| + |notes|
  {
    if i < |safes| then SafePrice(safes[i], trigger) > 0.0 && c == SafeConversion(safes[i], trigger)
    else NotePrice(notes[i - |safes|], trigger) > 0.0 && c == NoteConversion(notes[i - |safes|], trigger)
  }

  /** All SAFEs and then all notes, in their order; the first failure fails the whole event. */
  method ConvertAll(safes: seq<Safe>, notes: seq<Note>, trigger: Trigger) returns (r: Result<seq<Conversion>, string>)
    ensures r.Err? <==> exists i :: FailsFirst(safes, notes, trigger, i)
    ensures r.Err? ==> exists i :: FailsFirst(safes, notes, trigger, i) && r.error == Failure(safes, notes, trigger, i)
    ensures r.Ok? ==> |r.value| == |safes| + |notes|
    ensures r.Ok? ==> forall i :: 0 <= i < |r.value| ==> IsConversionOf(r.value[i], safes, notes, trigger, i)
    ensures r.Ok? ==> forall s <- safes :: SafeError(s, trigger).None?
    ensures r.Ok? ==> forall n <- notes :: NoteError(n, trigger).None?
  {
    hide SafePrice, SafeConversion, SafeError, NotePrice, NoteConversion, NoteError, IsPricedBy, IsSafeOf, IsNoteOf;
    var results: seq<Conversion> := [];
    for i := 0 to |safes|
      invariant |results| == i
      invariant forall k :: 0 <= k < i ==> SafeError(safes[k], trigger).None?
      invariant forall k :: 0 <= k < i ==> IsConversionOf(results[k], safes, notes, trigger, k)
    {
      var c := ConvertSAFE(safes[i], trigger);
      if c.Err? {
        assert FailsFirst(safes, notes, trigger, i);
        return Err("convert SAFE " + safes[i].id + ": " + c.error);
      }
      results := results + [c.value];
    }
    for j := 0 to |notes|
      invariant |results| == |safes| + j
      invariant forall k :: 0 <= k < j ==> NoteError(notes[k], trigger).None?
      invariant forall k :: 0 <= k < |results| ==> IsConversionOf(results[k], safes, notes, trigger, k)
    {
      var c := ConvertNote(notes[j], trigger);
      if c.Err? {
        assert FailsFirst(safes, notes, trigger, |safes| + j);
        return Err("convert note " + notes[j].id + ": " + c.error);
      }
      results := results + [c.value];
    }
    return Ok(results);
  }

  /** The results of an event: first the SAFEs', each priced by its own terms, then the notes'. */
  lemma EventFigures(cs: seq<Conversion>, safes: seq<Safe>, notes: seq<Note>, trigger: Trigger, i: nat)
    requires |cs| == |safes| + |notes| && i < |cs| && IsConversionOf(cs[i], safes, notes, trigger, i)
    requires (forall s <- safes :: SafeError(s, trigger).None?) && (forall n <- notes :: NoteError(n, trigger).None?)
    ensures i < |safes| ==>
      && IsSafeOf(cs[i], safes[i])
      && IsPricedBy(cs[i], safes[i].valuationCap, safes[i].discount, trigger.roundPrice,
                    if safes[i].kind == "post_money" then trigger.postMoneyShares else trigger.preMoneyShares)
    ensures i >= |safes| ==>
      && var n := notes[i - |safes|];
      && IsNoteOf(cs[i], n, trigger)
      && IsPricedBy(cs[i], n.valuationCap, n.discount, trigger.roundPrice, trigger.preMoneyShares)
  {
    hide SafeError, NoteError, SafePrice, NotePrice, SafeConversion, NoteConversion, IsPricedBy, IsSafeOf, IsNoteOf;
    if i < |safes| {
      SafeFigures(safes[i], trigger);
    } else {
      NoteFigures(notes[i - |safes|], trigger);
    }
  }

  lemma ConversionIsPriced(c: Conversion, safes: seq<Safe>, notes: seq<Note>, trigger: Trigger, i: nat)
    requires i < |safes| + |notes| && IsConversionOf(c, safes, notes, trigger, i)
    requires i < |safes| ==> safes[i].amount > 0.0
    requires i >= |safes| ==> notes[i - |safes|].principal > 0.0
    ensures c.price > 0.0 && c.converted > 0.0 && c.shares == SharesFor(c.converted, c.price)
    ensures trigger.roundPrice > 0.0 ==> c.price <= trigger.roundPrice
  {
    hide SharesFor, CapPrice, DiscountPrice, EffectiveDiscount, AccruedInterest, Term;
  }

  lemma {:induction false} SharesCostAtMost(cs: seq<Conversion>)
    requires forall c <- cs :: InRange(c) && c.converted > 0.0 && c.shares == SharesFor(c.converted, c.price)
    ensures SumReal(Paid(), cs) <= SumReal(Converted(), cs)
  {
    if cs != [] {
      var n := |cs| - 1;
      SharesCostAtMost(cs[..n]);
      assert cs[n] in cs;
      CostsAtMost(cs[n]);
      hide Paid, Converted, SharesFor;
    }
  }

  lemma CostsAtMost(c: Conversion)
    requires InRange(c) && c.converted > 0.0 && c.shares == SharesFor(c.converted, c.price)
    ensures Paid()(c) <= Converted()(c)
  {
    SharesAreWhole(c.converted, c.price);
    hide SharesFor;
  }

  /** The shares issued over a whole event cost at most what was converted. */
  lemma EventCostsAtMostItsAmounts(cs: seq<Conversion>, safes: seq<Safe>, notes: seq<Note>, trigger: Trigger)
    requires |cs| == |safes| + |notes|
    requires forall i :: 0 <= i < |cs| ==> IsConversionOf(cs[i], safes, notes, trigger, i)
    requires (forall s <- safes :: SafeError(s, trigger).None?) && (forall n <- notes :: NoteError(n, trigger).None?)
    requires forall c <- cs :: c.price > 0.0 ==> InRange(c)
    ensures SumReal(Paid(), cs) <= SumReal(Converted(), cs)
  {
    hide SharesFor, IsConversionOf, CapPrice, DiscountPrice, SumReal;
    forall c <- cs ensures InRange(c) && c.converted > 0.0 && c.shares == SharesFor(c.converted, c.price) {
      var i :| 0 <= i < |cs| && cs[i] == c;
      if i < |safes| {
        assert safes[i] in safes;
      } else {
        assert notes[i - |safes|] in notes;
      }
      ConversionIsPriced(c, safes, notes, trigger, i);
    }
    SharesCostAtMost(cs);
  }
}
