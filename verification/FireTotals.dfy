/** Control totals: what the C record declares against what the B records of its group show. */
module FireTotals {
  import opened GoBasics
  import opened Decimal
  import opened Layouts
  import opened FireRecords
  import opened FireReading
  import opened FirePayees
  import opened FireFiles
  import opened FireWire

  /** The true total of a code over a group, as an unbounded integer. */
  function AmountSum(payees: seq<Payee>, code: char): int {
    if payees == [] then 0
    else AmountSum(payees[..|payees| - 1], code) + Get(payees[|payees| - 1].paymentAmounts, code)
  }

  /** The total of the magnitudes, which is all that unsigned columns can show. */
  function MagnitudeSum(payees: seq<Payee>, code: char): nat {
    if payees == [] then 0
    else MagnitudeSum(payees[..|payees| - 1], code) + Abs(Get(payees[|payees| - 1].paymentAmounts, code))
  }

  /** What the payee records from position `from` on show in an amount's columns, added up. */
  function ShownSum(wire: string, from: nat, n: nat, code: char): nat {
    if n == 0 || !IsPlainCode(code) then 0
    else
      var record := RecordAt(wire, from + n - 1);
      ShownSum(wire, from, n - 1, code) + Value(Columns(record, AmountStart(code), AmountStart(code) + 11))
  }

  /** What a C record shows in a code's total columns. */
  function ShownTotal(wire: string, at: nat, code: char): nat {
    if CodeIndex(code) < 0 then 0
    else Value(Columns(RecordAt(wire, at), TotalStart(code), TotalStart(code) + 17))
  }

  /** The int64 totals are the true totals, wrapped. */
  lemma {:induction false} TotalsAreWrappedSums(payees: seq<Payee>, code: char)
    ensures Get(GroupTotals(payees), code) == Wrap64(AmountSum(payees, code))
  {
    hide Wrap64;
    if payees == [] {
      WrapInRange(0);
    } else {
      var n := |payees| - 1;
      TotalsAreWrappedSums(payees[..n], code);
      GroupTotalsSnoc(payees[..n], payees[n]);
      assert payees == payees[..n] + [payees[n]];
      var a := Get(payees[n].paymentAmounts, code);
      WrapAdd(AmountSum(payees[..n], code), a);
      AccumulateAt(GroupTotals(payees[..n]), payees[n].paymentAmounts, code);
    }
  }

  lemma AccumulateAt(totals: Amounts, amounts: Amounts, code: char)
    ensures Get(Accumulate(totals, amounts), code) == Wrap64(Get(totals, code) + Get(amounts, code))
  {
  }

  /** Amounts of fewer than 10^12 cents fit their twelve columns. */
  ghost predicate AmountsFit(payees: seq<Payee>, code: char) {
    forall p <- payees :: Abs(Get(p.paymentAmounts, code)) < 1_000_000_000_000
  }

  lemma {:induction false} SumsAreBounded(payees: seq<Payee>, code: char)
    requires AmountsFit(payees, code)
    ensures MagnitudeSum(payees, code) <= 999_999_999_999 * |payees|
  {
    if payees != [] {
      SumsAreBounded(payees[..|payees| - 1], code);
    }
  }

  ghost predicate SameSign(payees: seq<Payee>, code: char) {
    (forall p <- payees :: Get(p.paymentAmounts, code) >= 0) || (forall p <- payees :: Get(p.paymentAmounts, code) <= 0)
  }

  lemma {:induction false} SignOfSum(payees: seq<Payee>, code: char)
    ensures AmountSum(payees, code) == MagnitudeSum(payees, code)
      <==> forall p <- payees :: Get(p.paymentAmounts, code) >= 0
    ensures AmountSum(payees, code) == 0 - MagnitudeSum(payees, code)
      <==> forall p <- payees :: Get(p.paymentAmounts, code) <= 0
    ensures 0 - MagnitudeSum(payees, code) <= AmountSum(payees, code) <= MagnitudeSum(payees, code)
  {
    if payees != [] {
      var n := |payees| - 1;
      SignOfSum(payees[..n], code);
      assert forall p :: p in payees <==> p in payees[..n] || p == payees[n];
    }
  }

  // ----- what the wire shows

  lemma PayeeOnWire(d: FileData, i: nat, j: nat)
    requires i < |d.payerGroups| && j < |d.payerGroups[i].payees|
    ensures RecordAt(Wire(d), GroupStart(d, i) + 1 + j)
      == Paint(BLayout(d.payerGroups[i].payees[j], d.payerGroups[i].payer.amountCodes))
  {
    hide BLayout, ALayout, CLayout, Paint, Render, FileRecord, Wire, GroupStart, RecordCount, RecordAt;
    GroupPosition(d, i, 1 + j);
    SlotRecord(d, GroupStart(d, i) + 1 + j, BLayout(d.payerGroups[i].payees[j], d.payerGroups[i].payer.amountCodes));
  }

  lemma EndOfPayerOnWire(d: FileData, i: nat)
    requires i < |d.payerGroups|
    ensures RecordAt(Wire(d), GroupStart(d, i) + 1 + |d.payerGroups[i].payees|)
      == Paint(CLayout(d.payerGroups[i].endOfPayer))
  {
    hide BLayout, ALayout, CLayout, Paint, Render, FileRecord, Wire, GroupStart, RecordCount, RecordAt;
    var n := |d.payerGroups[i].payees|;
    GroupPosition(d, i, 1 + n);
    SlotRecord(d, GroupStart(d, i) + 1 + n, CLayout(d.payerGroups[i].endOfPayer));
  }

  lemma ShownAmount(p: Payee, codes: string, code: char)
    requires FormFieldsClear(p.formSpecificFields) && IsPlainCode(code)
    ensures Value(Columns(Paint(BLayout(p, codes)), AmountStart(code), AmountStart(code) + 11))
      == if code in codes then Abs(Get(p.paymentAmounts, code)) % Pow10(12) else 0
  {
    hide BLayout, Paint, FormFieldsClear, Value, Pow10;
    AmountReadsBack(p, codes, code);
    ValueOfBlanks(12);
  }

  lemma ShownGroupTotal(e: EndOfPayer, code: char)
    requires CodeIndex(code) >= 0
    ensures Value(Columns(Paint(CLayout(e)), TotalStart(code), TotalStart(code) + 17))
      == Abs(Get(TotalsOf(e), code)) % Pow10(18)
  {
    hide CLayout, Paint, Value, ShowsMark, Pow10;
    EndOfPayerReadsBack(e);
    assert ShowsTotal(Paint(CLayout(e)), code, TotalsOf(e));
    ValueOfBlanks(18);
    ZeroMod(18);
  }

  lemma ZeroMod(w: nat)
    ensures 0 % Pow10(w) == 0
  {
  }

  lemma SmallMod(v: nat, m: nat)
    requires v < m
    ensures v % m == v
  {
  }

  lemma Pow12And18()
    ensures Pow10(12) == 1_000_000_000_000 && Pow10(18) == 1_000_000_000_000_000_000
  {
    assert Pow10(4) == 10_000;
    assert Pow10(8) == 100_000_000;
    assert Pow10(12) == 1_000_000_000_000;
    assert Pow10(16) == 10_000_000_000_000_000;
  }

  lemma {:induction false} ShownPayees(d: FileData, i: nat, n: nat, code: char)
    requires i < |d.payerGroups| && n <= |d.payerGroups[i].payees| && IsPlainCode(code)
    requires GroupClear(d.payerGroups[i]) && AmountsFit(d.payerGroups[i].payees, code)
    ensures ShownSum(Wire(d), GroupStart(d, i) + 1, n, code)
      == if code in d.payerGroups[i].payer.amountCodes then MagnitudeSum(d.payerGroups[i].payees[..n], code) else 0
  {
    hide Wire, GroupStart, RecordAt, BLayout, Paint, FormFieldsClear, Value, Columns, Pow10;
    if n > 0 {
      var g := d.payerGroups[i];
      var p := g.payees[n - 1];
      ShownPayees(d, i, n - 1, code);
      PayeeOnWire(d, i, n - 1);
      assert p in g.payees;
      ShownAmount(p, g.payer.amountCodes, code);
      Pow12And18();
      SmallMod(Abs(Get(p.paymentAmounts, code)), Pow10(12));
      assert g.payees[..n][..n - 1] == g.payees[..n - 1];
    }
  }

  lemma WiredTotal(d: FileData, i: nat, code: char)
    requires i < |d.payerGroups| && d.payerGroups[i].endOfPayer.amountTotals == None && CodeIndex(code) >= 0
    ensures ShownTotal(Wire(Fill(d)), GroupStart(d, i) + 1 + |d.payerGroups[i].payees|, code)
      == Abs(Wrap64(AmountSum(d.payerGroups[i].payees, code))) % Pow10(18)
  {
    hide Wire, RecordAt, CLayout, Paint, Value, Columns, Pow10, Wrap64, FillGroup, FillGroups, GroupTotals;
    var g := d.payerGroups[i];
    FilledGroup(d, i);
    EndOfPayerOnWire(Fill(d), i);
    ShownGroupTotal(Fill(d).payerGroups[i].endOfPayer, code);
    TotalsAreWrappedSums(g.payees, code);
  }

  /** What filling does to a group whose C record was left zero. */
  lemma FilledGroup(d: FileData, i: nat)
    requires i < |d.payerGroups|
    ensures var g, f := d.payerGroups[i], Fill(d);
      && |f.payerGroups| == |d.payerGroups| && GroupStart(f, i) == GroupStart(d, i)
      && f.payerGroups[i].payer.amountCodes == g.payer.amountCodes
      && |f.payerGroups[i].payees| == |g.payees|
      && (forall j :: 0 <= j < |g.payees| ==>
            && f.payerGroups[i].payees[j].paymentAmounts == g.payees[j].paymentAmounts
            && f.payerGroups[i].payees[j].formSpecificFields == g.payees[j].formSpecificFields)
      && (g.endOfPayer.amountTotals == None ==> TotalsOf(f.payerGroups[i].endOfPayer) == GroupTotals(g.payees))
  {
    hide FillGroups, GroupTotals, RecordsBefore, PayeesBefore;
    FilledAt(d.payerGroups, d.transmitter.paymentYear, i);
    CountsUnchanged(d.payerGroups, d.transmitter.paymentYear, i);
  }

  lemma {:induction false} SameMagnitudes(ps: seq<Payee>, qs: seq<Payee>, code: char)
    requires |ps| == |qs| && forall j :: 0 <= j < |ps| ==> ps[j].paymentAmounts == qs[j].paymentAmounts
    ensures MagnitudeSum(ps, code) == MagnitudeSum(qs, code)
  {
    if ps != [] {
      var n := |ps| - 1;
      SameMagnitudes(ps[..n], qs[..n], code);
    }
  }

  lemma WiredPayees(d: FileData, i: nat, code: char)
    requires i < |d.payerGroups| && IsPlainCode(code)
    requires GroupClear(d.payerGroups[i]) && AmountsFit(d.payerGroups[i].payees, code)
    ensures var g := d.payerGroups[i];
      ShownSum(Wire(Fill(d)), GroupStart(d, i) + 1, |g.payees|, code)
      == if code in g.payer.amountCodes then MagnitudeSum(g.payees, code) else 0
  {
    hide Wire, Fill, GroupStart, FormFieldsClear, TotalsOf, GroupTotals, ShownSum;
    var g, f := d.payerGroups[i], Fill(d);
    FilledGroup(d, i);
    var h := f.payerGroups[i];
    forall j | 0 <= j < |g.payees|
      ensures FormFieldsClear(h.payees[j].formSpecificFields)
      ensures Abs(Get(h.payees[j].paymentAmounts, code)) < 1_000_000_000_000
    {
      assert g.payees[j] in g.payees;
    }
    ShownPayees(f, i, |g.payees|, code);
    assert h.payees[..|g.payees|] == h.payees;
    SameMagnitudes(h.payees, g.payees, code);
  }

  /** Control totals. For a group of fewer than 10^6 payees whose amounts for a plain code fit their columns and whose
        C record is left to Marshal: the C record shows the magnitude of the true total, with no overflow; the B
        records show the magnitudes of the amounts if the payer lists the code and nothing otherwise; and the two
        agree exactly when no payee's amount opposes another's in sign, or, for an unlisted code, when the total is
        zero. */
  lemma ControlTotals(d: FileData, i: nat, code: char)
    requires i < |d.payerGroups| && IsPlainCode(code)
    requires var g := d.payerGroups[i];
      GroupClear(g) && g.endOfPayer.amountTotals == None && |g.payees| < 1_000_000 && AmountsFit(g.payees, code)
    ensures var g, wire, start := d.payerGroups[i], Wire(Fill(d)), GroupStart(d, i);
      var total, shown := ShownTotal(wire, start + 1 + |g.payees|, code), ShownSum(wire, start + 1, |g.payees|, code);
      && total == Abs(AmountSum(g.payees, code))
      && shown == (if code in g.payer.amountCodes then MagnitudeSum(g.payees, code) else 0)
      && (total == shown <==>
            if code in g.payer.amountCodes then SameSign(g.payees, code) else AmountSum(g.payees, code) == 0)
  {
    hide Wire, Fill, GroupStart, ShownTotal, ShownSum, GroupClear, AmountsFit, AmountSum, MagnitudeSum, Pow10, Wrap64;
    var g := d.payerGroups[i];
    WiredTotal(d, i, code);
    WiredPayees(d, i, code);
    SumsAreBounded(g.payees, code);
    SignOfSum(g.payees, code);
    WrapInRange(AmountSum(g.payees, code));
    Pow12And18();
    SmallMod(Abs(AmountSum(g.payees, code)), Pow10(18));
  }

  /** The ordinary case: non-negative amounts at listed codes always balance. */
  lemma NonNegativeTotalsBalance(d: FileData, i: nat, code: char)
    requires i < |d.payerGroups| && IsPlainCode(code)
    requires var g := d.payerGroups[i];
      && GroupClear(g) && g.endOfPayer.amountTotals == None && |g.payees| < 1_000_000
      && code in g.payer.amountCodes
      && forall p <- g.payees :: 0 <= Get(p.paymentAmounts, code) < 1_000_000_000_000
    ensures var g, wire, start := d.payerGroups[i], Wire(Fill(d)), GroupStart(d, i);
      ShownTotal(wire, start + 1 + |g.payees|, code) == ShownSum(wire, start + 1, |g.payees|, code)
        == AmountSum(g.payees, code)
  {
    hide Wire, Fill, GroupStart, ShownTotal, ShownSum, GroupClear, AmountSum, MagnitudeSum;
    ControlTotals(d, i, code);
    SignOfSum(d.payerGroups[i].payees, code);
  }

  /** The C record of a group whose counter was left zero declares the payees that precede it. */
  lemma EndOfPayerCountsPayees(d: FileData, i: nat)
    requires i < |d.payerGroups| && d.payerGroups[i].endOfPayer.numPayees == 0
    ensures var n := |d.payerGroups[i].payees|;
      ShowsCount(RecordAt(Wire(Fill(d)), GroupStart(d, i) + 1 + n), 2, 9, n)
  {
    hide Wire, RecordAt, CLayout, Paint, FillGroups, ShowsNumber, ShowsCount, ShowsMark, GroupTotals, RecordsBefore,
      PayeesBefore, TotalStart;
    var n, e := |d.payerGroups[i].payees|, Fill(d).payerGroups[i].endOfPayer;
    FilledGroup(d, i);
    FilledAt(d.payerGroups, d.transmitter.paymentYear, i);
    EndOfPayerOnWire(Fill(d), i);
    EndOfPayerReadsBack(e);
    assert e.numPayees == n;
    NumberIsCount(Paint(CLayout(e)), 2, 9, n);
  }

  // ----- control totals that do not balance

  function PayeeOf(code: char, cents: int64): Payee {
    NoPayee().(paymentAmounts := map[code := cents])
  }

  /** One payer that lists code 1, with a payee of +100 cents and one of -100. */
  function OpposedFile(): FileData {
    FileData(NoTransmitter(),
             [PayerGroup(NoPayer().(typeOfReturn := "1 ", amountCodes := "1"), [PayeeOf('1', 100), PayeeOf('1', -100)],
                         EndOfPayer(0, None, 0))],
             [], EndOfFile(0, 0, 0))
  }

  lemma OpposedSums()
    ensures var payees := [PayeeOf('1', 100), PayeeOf('1', -100)];
      AmountSum(payees, '1') == 0 && MagnitudeSum(payees, '1') == 200
  {
    var payees := [PayeeOf('1', 100), PayeeOf('1', -100)];
    assert payees[..1] == [PayeeOf('1', 100)] && payees[..1][..0] == [];
  }

  /** Opposite amounts cancel in the C record and add up in the B records: 0 against 200. */
  lemma OpposedAmountsExample()
    ensures var wire := Wire(Fill(OpposedFile()));
      ShownTotal(wire, 4, '1') == 0 && ShownSum(wire, 2, 2, '1') == 200
  {
    hide Wire, Fill, ShownTotal, ShownSum, AmountSum, MagnitudeSum, GroupStart;
    OpposedSums();
    OpposedIsClear();
    ControlTotals(OpposedFile(), 0, '1');
  }

  lemma OpposedIsClear()
    ensures var g := OpposedFile().payerGroups[0];
      GroupClear(g) && AmountsFit(g.payees, '1') && GroupStart(OpposedFile(), 0) == 1 && '1' in g.payer.amountCodes
  {
  }
}
