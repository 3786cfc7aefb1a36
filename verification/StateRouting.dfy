/** Per-state routing of a federal filing's payees: the breakdown, the filings, and that they partition the payees. */
module StateRouting {
  import opened GoBasics
  import opened Arithmetic
  import opened Decimal
  import TaxForms

  /** What a payee's form says about state tax; some forms carry no state income. */
  datatype FormData = WithIncome(state: string, tax: real, income: real)
                    | WithoutIncome(state: string, tax: real)
                    | Retirement(state: string, tax: real, distribution: real)
                    | Unknown

  datatype Amount = Amount(tax: int64, income: int64)

  datatype Profile = Profile(participates: bool, code: string, portal: string, url: string, threshold: int)

  datatype Filing = Filing(
    state: string, routing: string, code: string, portal: string, url: string, payees: nat, tax: int64, income: int64,
    notes: string)

  type Registry = map<string, Profile>

  // ----- cents

  /** This package's own rounding: half up, then truncation toward zero. */
  function Cents(v: real): int64 {
    ToInt64(v * 100.0 + 0.5)
  }

  /** It agrees with the form builders' rounding except from minus half a cent downwards, where it is one cent
      higher. */
  lemma RoundingsAgreeIff(v: real)
    requires TaxForms.CentsFit(v)
    ensures Cents(v) == TaxForms.DollarsToCents(v) <==> v > -0.005
    ensures v <= -0.005 ==> Cents(v) == TaxForms.DollarsToCents(v) + 1
  {
  }

  /** Minus one cent: this package says zero, the form builders say minus one. */
  lemma NegativeCentExample()
    ensures Cents(-0.01) == 0 && TaxForms.DollarsToCents(-0.01) == -1
  {
  }

  // ----- the breakdown

  function StateOf(d: FormData): string {
    if d.Unknown? then "" else d.state
  }

  function AmountOf(d: FormData): Amount {
    match d
    case WithIncome(_, tax, income) => Amount(Cents(tax), Cents(income))
    case WithoutIncome(_, tax) => Amount(Cents(tax), Cents(0.0))
    case Retirement(_, tax, distribution) => Amount(Cents(tax), Cents(distribution))
    case Unknown => Amount(0, 0)
  }

  /** The amounts of the payees of one state, in filing order. */
  function AmountsOf(payees: seq<FormData>, s: string): seq<Amount> {
    if payees == [] then []
    else AmountsOf(payees[..|payees| - 1], s)
         + if StateOf(payees[|payees| - 1]) == s then [AmountOf(payees[|payees| - 1])] else []
  }

  /** The amounts of all payees that have a state code. */
  function Coded(payees: seq<FormData>): seq<Amount> {
    if payees == [] then []
    else Coded(payees[..|payees| - 1])
         + if StateOf(payees[|payees| - 1]) != "" then [AmountOf(payees[|payees| - 1])] else []
  }

  /** Every coded state has its payees' amounts, and no other state has an entry. */
  ghost predicate IsBreakdown(m: map<string, seq<Amount>>, payees: seq<FormData>) {
    forall s :: (s in m <==> s != "" && AmountsOf(payees, s) != []) && (s in m ==> m[s] == AmountsOf(payees, s))
  }

  lemma OneMorePayee(payees: seq<FormData>, i: nat, s: string)
    requires i < |payees|
    ensures AmountsOf(payees[..i + 1], s) ==
            AmountsOf(payees[..i], s) + if StateOf(payees[i]) == s then [AmountOf(payees[i])] else []
  {
    assert payees[..i + 1][..i] == payees[..i];
  }

  method StateBreakdown(payees: seq<FormData>) returns (out: map<string, seq<Amount>>)
    ensures IsBreakdown(out, payees)
  {
    hide AmountsOf, AmountOf;
    out := map[];
    NoPayees();
    for i := 0 to |payees|
      invariant IsBreakdown(out, payees[..i])
    {
      forall s { OneMorePayee(payees, i, s); }
      var st := StateOf(payees[i]);
      if st == "" {
        continue;
      }
      out := out[st := (if st in out then out[st] else []) + [AmountOf(payees[i])]];
    }
    assert payees[..|payees|] == payees;
  }

  lemma NoPayees()
    ensures forall s :: AmountsOf([], s) == []
  {
  }

  // ----- one filing

  function Taxes(): Amount -> int { (a: Amount) => a.tax }
  function Incomes(): Amount -> int { (a: Amount) => a.income }
  function Ones(): Amount -> int { (a: Amount) => 1 }

  const DOR_WEBSITE: string := "dor_website"
  const NO_PORTAL: string := "none"

  function Routed(registry: Registry, s: string, payees: nat, tax: int64, income: int64): Filing {
    if s !in registry then
      Filing(s, "direct", "", DOR_WEBSITE, "", payees, tax, income,
             "state " + s + " not in CFSF registry - verify per-state portal manually")
    else
      var prof := registry[s];
      if prof.participates then
        Filing(s, "cfsf", prof.code, "", "", payees, tax, income,
               "federal filing auto-routes to " + s + " under CFSF (state code " + prof.code + ")")
      else if prof.portal == NO_PORTAL then Filing(s, "none", "", "", "", payees, tax, income, prof.url)
      else
        Filing(s, "direct", "", prof.portal, prof.url, payees, tax, income,
               if prof.threshold > 0 && payees < prof.threshold
               then "below " + s + " e-file threshold (" + Itoa(prof.threshold) + " forms); paper filing permitted"
               else "file directly at " + s + " DOR portal (" + prof.portal + ")")
  }

  /** The filing of a state over its payees' amounts; totals wrap as int64 sums do. */
  function FilingOf(registry: Registry, s: string, amounts: seq<Amount>): (f: Filing)
    ensures f.state == s && f.payees == |amounts|
  {
    Routed(registry, s, |amounts|, Wrap64(SumInt(Taxes(), amounts)), Wrap64(SumInt(Incomes(), amounts)))
  }

  method BuildFiling(registry: Registry, s: string, amounts: seq<Amount>) returns (filing: Filing)
    ensures filing == FilingOf(registry, s, amounts)
  {
    hide Wrap64;
    filing := Filing(s, "", "", "", "", |amounts|, 0, 0, "");
    WrapInRange(0);
    for i := 0 to |amounts|
      invariant filing == Filing(s, "", "", "", "", |amounts|, Wrap64(SumInt(Taxes(), amounts[..i])),
                                 Wrap64(SumInt(Incomes(), amounts[..i])), "")
    {
      assert amounts[..i + 1] == amounts[..i] + [amounts[i]];
      SumIntSnoc(Taxes(), amounts[..i], amounts[i]);
      SumIntSnoc(Incomes(), amounts[..i], amounts[i]);
      WrapAdd(SumInt(Taxes(), amounts[..i]), amounts[i].tax);
      WrapAdd(SumInt(Incomes(), amounts[..i]), amounts[i].income);
      filing := filing.(tax := Wrap64(filing.tax as int + amounts[i].tax as int),
                income := Wrap64(filing.income as int + amounts[i].income as int));
    }
    assert amounts[..|amounts|] == amounts;
    if s !in registry {
      return filing.(routing := "direct", portal := DOR_WEBSITE,
        notes := "state " + s + " not in CFSF registry - verify per-state portal manually");
    }
    var prof := registry[s];
    if prof.participates {
      return filing.(routing := "cfsf", code := prof.code,
        notes := "federal filing auto-routes to " + s + " under CFSF (state code " + prof.code + ")");
    } else if prof.portal == NO_PORTAL {
      return filing.(routing := "none", notes := prof.url);
    }
    filing := filing.(routing := "direct", portal := prof.portal, url := prof.url);
    if prof.threshold > 0 && filing.payees < prof.threshold {
      filing := filing.(
        notes := "below " + s + " e-file threshold (" + Itoa(prof.threshold) + " forms); paper filing permitted");
    } else {
      filing := filing.(notes := "file directly at " + s + " DOR portal (" + prof.portal + ")");
    }
  }

  // ----- sorting states

  /** Go's string order. */
  predicate Less(a: string, b: string) {
    if b == "" then false
    else if a == "" then true
    else if a[0] != b[0] then a[0] < b[0]
    else Less(a[1..], b[1..])
  }

  lemma {:induction false} LessIsTotal(a: string, b: string)
    ensures Less(a, b) || Less(b, a) || a == b
    ensures Less(a, b) ==> !Less(b, a) && a != b
  {
    if a != "" && b != "" && a[0] == b[0] {
      LessIsTotal(a[1..], b[1..]);
      assert a == [a[0]] + a[1..] && b == [b[0]] + b[1..];
    }
  }

  lemma {:induction false} LessIsTransitive(a: string, b: string, c: string)
    requires Less(a, b) && Less(b, c)
    ensures Less(a, c)
  {
    if a != "" && b[0] == a[0] && c[0] == b[0] {
      LessIsTransitive(a[1..], b[1..], c[1..]);
    }
  }

  predicate IsLeast(s: string, keys: set<string>) {
    s in keys && forall t <- keys :: t == s || Less(s, t)
  }

  lemma {:induction false} SomeLeast(keys: set<string>) returns (s: string)
    requires keys != {}
    ensures IsLeast(s, keys)
    decreases |keys|
  {
    var k :| k in keys;
    if keys == {k} {
      s := k;
    } else {
      var rest := keys - {k};
      var r := SomeLeast(rest);
      LessIsTotal(k, r);
      s := if Less(k, r) then k else r;
      forall t <- keys ensures t == s || Less(s, t) {
        if t != k && Less(k, r) && t != r { LessIsTransitive(k, r, t); }
      }
    }
  }

  lemma LeastIs(s: string, keys: set<string>)
    requires IsLeast(s, keys)
    ensures s in keys && forall t <- keys :: t == s || Less(s, t)
  {
  }

  ghost predicate Increasing(ss: seq<string>) {
    forall i, j :: 0 <= i < j < |ss| ==> Less(ss[i], ss[j])
  }

  /** The keys of the breakdown, sorted. */
  method SortedStates(keys: set<string>) returns (ss: seq<string>)
    ensures Increasing(ss) && forall s :: s in ss <==> s in keys
  {
    hide Less, IsLeast;
    ss := [];
    var rest := keys;
    while rest != {}
      invariant rest <= keys && Increasing(ss)
      invariant forall s :: s in keys <==> s in ss || s in rest
      invariant forall s <- ss, t <- rest :: Less(s, t)
      decreases |rest|
    {
      ghost var some := SomeLeast(rest);
      LeastIs(some, rest);
      var s :| s in rest && IsLeast(s, rest);
      LeastIs(s, rest);
      ss, rest := ss + [s], rest - {s};
    }
  }

  // ----- routing

  /** A Go map read: a state without an entry, the empty code included, has no amounts. */
  function Requested(payees: seq<FormData>, s: string): seq<Amount> {
    if s == "" then [] else AmountsOf(payees, s)
  }

  function StatesOf(out: seq<Filing>): (ss: seq<string>)
    ensures |ss| == |out|
  {
    seq(|out|, i requires 0 <= i < |out| => out[i].state)
  }

  /** Every filing is its state's, over that state's payees. */
  ghost predicate Routes(registry: Registry, payees: seq<FormData>, out: seq<Filing>) {
    forall i :: 0 <= i < |out| ==> out[i] == FilingOf(registry, out[i].state, Requested(payees, out[i].state))
  }

  /** The requested states in the order requested, or, if none is, every state of the payees in increasing order. */
  method RouteToStates(registry: Registry, submission: Option<seq<FormData>>, states: seq<string>)
    returns (r: Result<seq<Filing>, string>)
    ensures submission.None? ==> r == Err("cfsf: submission is nil")
    ensures submission.Some? ==> r.Ok? && Routes(registry, submission.value, r.value)
    ensures submission.Some? && states != [] ==> StatesOf(r.value) == states
    ensures submission.Some? && states == [] ==>
      && Increasing(StatesOf(r.value))
      && forall s :: s in StatesOf(r.value) <==> s != "" && AmountsOf(submission.value, s) != []
  {
    hide AmountsOf, FilingOf, Increasing;
    if submission.None? {
      return Err("cfsf: submission is nil");
    }
    var payees := submission.value;
    var breakdown := StateBreakdown(payees);
    var ss := states;
    if |ss| == 0 {
      ss := SortedStates(breakdown.Keys);
    }
    var out: seq<Filing> := [];
    for i := 0 to |ss|
      invariant |out| == i
      invariant forall k :: 0 <= k < i ==> out[k] == FilingOf(registry, ss[k], Requested(payees, ss[k]))
    {
      var amounts := if ss[i] in breakdown then breakdown[ss[i]] else [];
      var filing := BuildFiling(registry, ss[i], amounts);
      out := out + [filing];
    }
    assert StatesOf(out) == ss;
    return Ok(out);
  }

  // ----- the filings partition the payees

  function OverStates(w: Amount -> int, ss: seq<string>, payees: seq<FormData>): int {
    if ss == [] then 0
    else OverStates(w, ss[..|ss| - 1], payees) + SumInt(w, Requested(payees, ss[|ss| - 1]))
  }

  lemma StateGrows(w: Amount -> int, s: string, payees: seq<FormData>, p: FormData)
    ensures SumInt(w, Requested(payees + [p], s)) ==
            SumInt(w, Requested(payees, s)) + if s != "" && StateOf(p) == s then w(AmountOf(p)) else 0
  {
    hide AmountOf;
    assert (payees + [p])[..|payees|] == payees;
    SumIntSnoc(w, AmountsOf(payees, s), AmountOf(p));
    assert AmountsOf(payees, s) + [] == AmountsOf(payees, s);
  }

  lemma OverStatesIs(w: Amount -> int, ss: seq<string>, payees: seq<FormData>)
    ensures OverStates(w, ss, payees) ==
            if ss == [] then 0
            else OverStates(w, ss[..|ss| - 1], payees) + SumInt(w, Requested(payees, ss[|ss| - 1]))
  {
  }

  /** In an increasing list the last state occurs once. */
  lemma LastIsNew(ss: seq<string>)
    requires Increasing(ss) && ss != []
    ensures Increasing(ss[..|ss| - 1]) && ss[|ss| - 1] !in ss[..|ss| - 1]
    ensures forall s :: s in ss <==> s in ss[..|ss| - 1] || s == ss[|ss| - 1]
  {
    hide Less;
    var n := |ss| - 1;
    assert ss == ss[..n] + [ss[n]];
    forall i | 0 <= i < n ensures ss[i] != ss[n] {
      assert Less(ss[i], ss[n]);
      LessIsTotal(ss[i], ss[n]);
    }
  }

  /** Adding a payee adds its weight once, to its own state, if the states are distinct. */
  lemma {:induction false} PayeeCountsOnce(w: Amount -> int, ss: seq<string>, payees: seq<FormData>, p: FormData)
    requires Increasing(ss)
    ensures OverStates(w, ss, payees + [p]) ==
            OverStates(w, ss, payees) + if StateOf(p) != "" && StateOf(p) in ss then w(AmountOf(p)) else 0
  {
    hide *;
    OverStatesIs(w, ss, payees);
    OverStatesIs(w, ss, payees + [p]);
    if ss != [] {
      var n := |ss| - 1;
      LastIsNew(ss);
      PayeeCountsOnce(w, ss[..n], payees, p);
      StateGrows(w, ss[n], payees, p);
    }
  }

  lemma CodedGrows(w: Amount -> int, payees: seq<FormData>, p: FormData)
    ensures SumInt(w, Coded(payees + [p])) == SumInt(w, Coded(payees)) + if StateOf(p) != "" then w(AmountOf(p)) else 0
  {
    hide AmountOf;
    assert (payees + [p])[..|payees|] == payees;
    SumIntSnoc(w, Coded(payees), AmountOf(p));
    assert Coded(payees) + [] == Coded(payees);
  }

  lemma NobodyTotals(w: Amount -> int, s: string)
    ensures SumInt(w, Coded([])) == 0 && SumInt(w, Requested([], s)) == 0
  {
  }

  lemma {:induction false} NoPayeesNoTotals(w: Amount -> int, ss: seq<string>)
    ensures OverStates(w, ss, []) == 0
  {
    if ss != [] {
      NoPayeesNoTotals(w, ss[..|ss| - 1]);
    }
  }

  /** Whatever is added up, over the distinct states it is what it is over all payees with a state code. */
  lemma {:induction false} StatesPartition(w: Amount -> int, ss: seq<string>, payees: seq<FormData>)
    requires Increasing(ss) && forall p <- payees :: StateOf(p) != "" ==> StateOf(p) in ss
    ensures OverStates(w, ss, payees) == SumInt(w, Coded(payees))
  {
    hide AmountOf, AmountsOf, StateOf, Increasing, SumInt, Coded, OverStates;
    if payees == [] {
      NoPayeesNoTotals(w, ss);
      NobodyTotals(w, "");
    } else {
      var n := |payees| - 1;
      StatesPartition(w, ss, payees[..n]);
      PayeeCountsOnce(w, ss, payees[..n], payees[n]);
      assert payees == payees[..n] + [payees[n]];
      CodedGrows(w, payees[..n], payees[n]);
    }
  }

  lemma {:induction false} PayeeIsListed(payees: seq<FormData>, p: FormData)
    requires p in payees
    ensures AmountsOf(payees, StateOf(p)) != []
  {
    var n := |payees| - 1;
    if p != payees[n] {
      PayeeIsListed(payees[..n], p);
    }
  }

  function PayeesOf(): Filing -> int { (f: Filing) => f.payees }
  function TaxOf(): Filing -> int { (f: Filing) => f.tax }
  function IncomeOf(): Filing -> int { (f: Filing) => f.income }

  lemma {:induction false} CountIsOnes(amounts: seq<Amount>)
    ensures SumInt(Ones(), amounts) == |amounts|
  {
    if amounts != [] {
      CountIsOnes(amounts[..|amounts| - 1]);
    }
  }

  lemma RoutesPrefix(registry: Registry, payees: seq<FormData>, out: seq<Filing>, n: nat)
    requires Routes(registry, payees, out) && n <= |out|
    ensures Routes(registry, payees, out[..n]) && StatesOf(out[..n]) == StatesOf(out)[..n]
  {
    hide FilingOf, Requested;
  }

  /** One filing more adds its figure, and its state's total over the payees. */
  lemma OneMoreFiling(f: Filing -> int, w: Amount -> int, payees: seq<FormData>, out: seq<Filing>)
    requires out != []
    ensures var n := |out| - 1;
      && SumInt(f, out) == SumInt(f, out[..n]) + f(out[n])
      && OverStates(w, StatesOf(out), payees) ==
         OverStates(w, StatesOf(out)[..n], payees) + SumInt(w, Requested(payees, out[n].state))
  {
  }

  lemma NoFilings(f: Filing -> int, w: Amount -> int, payees: seq<FormData>)
    ensures SumInt(f, []) == 0 && OverStates(w, StatesOf([]), payees) == 0
  {
  }

  lemma {:induction false} FilingCounts(registry: Registry, payees: seq<FormData>, out: seq<Filing>)
    requires Routes(registry, payees, out)
    ensures SumInt(PayeesOf(), out) == OverStates(Ones(), StatesOf(out), payees)
  {
    hide Requested, SumInt, Routed, OverStates, StatesOf;
    NoFilings(PayeesOf(), Ones(), payees);
    if out != [] {
      var n := |out| - 1;
      RoutesPrefix(registry, payees, out, n);
      FilingCounts(registry, payees, out[..n]);
      OneMoreFiling(PayeesOf(), Ones(), payees, out);
      CountIsOnes(Requested(payees, out[n].state));
    }
  }

  predicate FitsInt64(x: int) {
    MIN_INT64 <= x <= MAX_INT64
  }

  /** No state's totals overflow. */
  ghost predicate TotalsFit(payees: seq<FormData>) {
    forall s: string ::
      FitsInt64(SumInt(Taxes(), Requested(payees, s))) && FitsInt64(SumInt(Incomes(), Requested(payees, s)))
  }

  lemma FilingTotals(registry: Registry, payees: seq<FormData>, s: string)
    requires TotalsFit(payees)
    ensures var f := FilingOf(registry, s, Requested(payees, s));
      f.tax == SumInt(Taxes(), Requested(payees, s)) && f.income == SumInt(Incomes(), Requested(payees, s))
  {
    hide AmountsOf;
  }

  lemma {:induction false} FilingSums(registry: Registry, payees: seq<FormData>, out: seq<Filing>)
    requires Routes(registry, payees, out) && TotalsFit(payees)
    ensures SumInt(TaxOf(), out) == OverStates(Taxes(), StatesOf(out), payees)
    ensures SumInt(IncomeOf(), out) == OverStates(Incomes(), StatesOf(out), payees)
  {
    hide Requested, SumInt, FilingOf, TotalsFit, Taxes, Incomes, OverStates, StatesOf;
    NoFilings(TaxOf(), Taxes(), payees);
    NoFilings(IncomeOf(), Incomes(), payees);
    if out != [] {
      var n := |out| - 1;
      RoutesPrefix(registry, payees, out, n);
      FilingSums(registry, payees, out[..n]);
      FilingTotals(registry, payees, out[n].state);
      OneMoreFiling(TaxOf(), Taxes(), payees, out);
      OneMoreFiling(IncomeOf(), Incomes(), payees, out);
    }
  }

  /** Inferred routing partitions the payees: the filings' counts, taxes and incomes add up to those of all coded
        payees. */
  lemma RoutingPartitionsPayees(registry: Registry, payees: seq<FormData>, out: seq<Filing>)
    requires Routes(registry, payees, out) && Increasing(StatesOf(out))
    requires forall s :: s in StatesOf(out) <==> s != "" && AmountsOf(payees, s) != []
    ensures SumInt(PayeesOf(), out) == |Coded(payees)|
    ensures TotalsFit(payees) ==>
      && SumInt(TaxOf(), out) == SumInt(Taxes(), Coded(payees))
      && SumInt(IncomeOf(), out) == SumInt(Incomes(), Coded(payees))
  {
    forall p <- payees | StateOf(p) != "" ensures StateOf(p) in StatesOf(out) { PayeeIsListed(payees, p); }
    hide AmountsOf, FilingOf, SumInt, Coded, OverStates, TotalsFit, Increasing, Routes, StateOf, StatesOf;
    FilingCounts(registry, payees, out);
    StatesPartition(Ones(), StatesOf(out), payees);
    CountIsOnes(Coded(payees));
    if TotalsFit(payees) {
      FilingSums(registry, payees, out);
      StatesPartition(Taxes(), StatesOf(out), payees);
      StatesPartition(Incomes(), StatesOf(out), payees);
    }
  }

  ghost predicate NonNegative(payees: seq<FormData>) {
    forall p <- payees :: AmountOf(p).tax >= 0 && AmountOf(p).income >= 0
  }

  lemma {:induction false} StateWithinAll(w: Amount -> int, payees: seq<FormData>, s: string)
    requires forall p <- payees :: w(AmountOf(p)) >= 0
    ensures 0 <= SumInt(w, Requested(payees, s)) <= SumInt(w, Coded(payees))
  {
    hide AmountOf, StateOf, SumInt, Coded, Requested;
    NobodyTotals(w, s);
    if payees != [] {
      var n := |payees| - 1;
      StateWithinAll(w, payees[..n], s);
      assert payees == payees[..n] + [payees[n]];
      StateGrows(w, s, payees[..n], payees[n]);
      CodedGrows(w, payees[..n], payees[n]);
    }
  }

  /** Non-negative amounts whose overall totals fit an int64 fit in every state. */
  lemma NonNegativeTotalsFit(payees: seq<FormData>)
    requires NonNegative(payees)
    requires FitsInt64(SumInt(Taxes(), Coded(payees))) && FitsInt64(SumInt(Incomes(), Coded(payees)))
    ensures TotalsFit(payees)
  {
    hide AmountOf, SumInt, Coded, Requested;
    forall s: string
      ensures FitsInt64(SumInt(Taxes(), Requested(payees, s))) && FitsInt64(SumInt(Incomes(), Requested(payees, s)))
    {
      StateWithinAll(Taxes(), payees, s);
      StateWithinAll(Incomes(), payees, s);
    }
  }

  // ----- the filings in the forms' own fields

  /** What one form adds to a state's tax: the withholding in its own field, if the state field names the state. */
  function TaxFor(s: string): FormData -> int {
    (d: FormData) => if !d.Unknown? && d.state == s then Cents(d.tax) else 0
  }

  /** What one form adds to a state's income: its state income, or a retirement plan's distribution. */
  function IncomeFor(s: string): FormData -> int {
    (d: FormData) =>
      if d.WithIncome? && d.state == s then Cents(d.income)
      else if d.Retirement? && d.state == s then Cents(d.distribution)
      else 0
  }

  function CountFor(s: string): FormData -> int {
    (d: FormData) => if !d.Unknown? && d.state == s then 1 else 0
  }

  /** A payee whose form has a state code, in the form's own terms. */
  function CodedTax(): FormData -> int {
    (d: FormData) => if !d.Unknown? && d.state != "" then Cents(d.tax) else 0
  }

  function CodedIncome(): FormData -> int {
    (d: FormData) =>
      if d.WithIncome? && d.state != "" then Cents(d.income)
      else if d.Retirement? && d.state != "" then Cents(d.distribution)
      else 0
  }

  lemma NoCents()
    ensures Cents(0.0) == 0
  {
  }

  lemma FieldsOf(p: FormData, s: string)
    requires s != ""
    ensures (if StateOf(p) == s then Taxes()(AmountOf(p)) else 0) == TaxFor(s)(p)
    ensures (if StateOf(p) == s then Incomes()(AmountOf(p)) else 0) == IncomeFor(s)(p)
    ensures (if StateOf(p) == s then Ones()(AmountOf(p)) else 0) == CountFor(s)(p)
    ensures (if StateOf(p) != "" then Taxes()(AmountOf(p)) else 0) == CodedTax()(p)
    ensures (if StateOf(p) != "" then Incomes()(AmountOf(p)) else 0) == CodedIncome()(p)
  {
    NoCents();
    hide Cents;
  }

  lemma SumOfPrefix<T>(f: T -> int, xs: seq<T>)
    ensures SumInt(f, xs) == if xs == [] then 0 else SumInt(f, xs[..|xs| - 1]) + f(xs[|xs| - 1])
  {
  }

  lemma {:induction false} FieldsAddUp(payees: seq<FormData>, s: string)
    requires s != ""
    ensures SumInt(Taxes(), Requested(payees, s)) == SumInt(TaxFor(s), payees)
    ensures SumInt(Incomes(), Requested(payees, s)) == SumInt(IncomeFor(s), payees)
    ensures SumInt(Ones(), Requested(payees, s)) == SumInt(CountFor(s), payees)
    ensures SumInt(Taxes(), Coded(payees)) == SumInt(CodedTax(), payees)
    ensures SumInt(Incomes(), Coded(payees)) == SumInt(CodedIncome(), payees)
  {
    hide *;
    SumOfPrefix(TaxFor(s), payees);
    SumOfPrefix(IncomeFor(s), payees);
    SumOfPrefix(CountFor(s), payees);
    SumOfPrefix(CodedTax(), payees);
    SumOfPrefix(CodedIncome(), payees);
    if payees == [] {
      NobodyTotals(Taxes(), s);
      NobodyTotals(Incomes(), s);
      NobodyTotals(Ones(), s);
    } else {
      var n := |payees| - 1;
      FieldsAddUp(payees[..n], s);
      assert payees == payees[..n] + [payees[n]];
      FieldsOf(payees[n], s);
      StateGrows(Taxes(), s, payees[..n], payees[n]);
      StateGrows(Incomes(), s, payees[..n], payees[n]);
      StateGrows(Ones(), s, payees[..n], payees[n]);
      CodedGrows(Taxes(), payees[..n], payees[n]);
      CodedGrows(Incomes(), payees[..n], payees[n]);
    }
  }

  /** Each filing of a state reports the number of payees whose form names it, the sum of their withheld taxes and the
        sum of their state incomes or distributions, in cents and wrapped as int64 sums are. */
  lemma FilingReportsFields(registry: Registry, payees: seq<FormData>, out: seq<Filing>, i: nat)
    requires Routes(registry, payees, out) && i < |out|
    ensures var s := out[i].state;
      if s == "" then out[i].payees == 0 && out[i].tax == 0 && out[i].income == 0
      else
        && out[i].payees == SumInt(CountFor(s), payees)
        && out[i].tax == Wrap64(SumInt(TaxFor(s), payees))
        && out[i].income == Wrap64(SumInt(IncomeFor(s), payees))
  {
    hide AmountsOf, FilingOf, Wrap64, TaxFor, IncomeFor, CountFor, SumInt, Requested;
    var s := out[i].state;
    RoutedTotals(registry, s, Requested(payees, s));
    CountIsOnes(Requested(payees, s));
    if s == "" {
      NothingRequested(payees);
      WrapInRange(0);
    } else {
      FieldsAddUp(payees, s);
    }
  }

  lemma NothingRequested(payees: seq<FormData>)
    ensures SumInt(Taxes(), Requested(payees, "")) == 0 && SumInt(Incomes(), Requested(payees, "")) == 0
    ensures Requested(payees, "") == []
  {
  }

  lemma RoutedTotals(registry: Registry, s: string, amounts: seq<Amount>)
    ensures var f := FilingOf(registry, s, amounts);
      && f.state == s && f.payees == |amounts|
      && f.tax == Wrap64(SumInt(Taxes(), amounts)) && f.income == Wrap64(SumInt(Incomes(), amounts))
  {
    hide Wrap64, SumInt;
  }

  /** How a state is filed: with the federal filing if it participates, not at all if it has no portal, and otherwise by
      hand at its portal, or at its website if it is not known. */
  lemma RoutedByProfile(registry: Registry, payees: seq<FormData>, out: seq<Filing>, i: nat)
    requires Routes(registry, payees, out) && i < |out|
    ensures var f := out[i];
      && (f.routing == "cfsf" <==> f.state in registry && registry[f.state].participates)
      && (f.routing == "none" <==>
            f.state in registry && !registry[f.state].participates && registry[f.state].portal == "none")
      && (f.routing == "direct" <==>
            f.state in registry ==> !registry[f.state].participates && registry[f.state].portal != "none")
      && f.code == (if f.routing == "cfsf" then registry[f.state].code else "")
      && f.portal == (if f.routing != "direct" then "" else if f.state in registry then registry[f.state].portal
                      else "dor_website")
      && f.url == (if f.routing == "direct" && f.state in registry then registry[f.state].url else "")
      && (f.state !in registry ==>
            f.notes == "state " + f.state + " not in CFSF registry - verify per-state portal manually")
      && (f.routing == "none" ==> f.notes == registry[f.state].url)
      && (f.routing == "cfsf" ==>
            f.notes == "federal filing auto-routes to " + f.state + " under CFSF (state code " + f.code + ")")
      && (f.routing == "direct" && f.state in registry ==>
            if 0 < registry[f.state].threshold && f.payees < registry[f.state].threshold
            then f.notes == "below " + f.state + " e-file threshold (" + Itoa(registry[f.state].threshold)
                          + " forms); paper filing permitted"
            else f.notes == "file directly at " + f.state + " DOR portal (" + f.portal + ")")
  {
    RoutingsDiffer();
    hide AmountsOf, Wrap64, SumInt;
  }

  lemma RoutingsDiffer()
    ensures "cfsf" != "none" && "cfsf" != "direct" && "none" != "direct"
  {
    assert "cfsf"[0] == 'c' && "none"[0] == 'n' && "direct"[0] == 'd';
  }

  /** With states inferred, the filings' taxes and incomes add up to those of all forms that name a state. */
  lemma RoutingReportsAllFields(registry: Registry, payees: seq<FormData>, out: seq<Filing>)
    requires Routes(registry, payees, out) && Increasing(StatesOf(out)) && TotalsFit(payees)
    requires forall s :: s in StatesOf(out) <==> s != "" && AmountsOf(payees, s) != []
    ensures SumInt(TaxOf(), out) == SumInt(CodedTax(), payees)
    ensures SumInt(IncomeOf(), out) == SumInt(CodedIncome(), payees)
  {
    RoutingPartitionsPayees(registry, payees, out);
    FieldsAddUp(payees, "CA");
    hide *;
  }
}
