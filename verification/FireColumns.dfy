/** Whole files by column number: where each amount code stands, and the years, numbers and counts shown. */
module FireColumns {
  import opened Decimal
  import opened Layouts
  import opened RecordBuffer
  import opened FireRecords
  import opened FireLayouts
  import opened FireRender
  import opened FireReading
  import opened FirePayees
  import opened FireFiles
  import opened FireWire
  import opened FireTotals

  // ----- amounts and totals

  /** The k-th amount code stands in columns 55 + 12k to 66 + 12k of a B record: its amount if it is listed, and
        blanks if it is not. The last two, H and I, share their columns with the name. */
  lemma AmountStandsAt(p: Payee, codes: string, k: nat)
    requires FormFieldsClear(p.formSpecificFields) && k < 16
    ensures var r, code, m := Paint(BLayout(p, codes)), "123456789ABCDEFGHI"[k], p.paymentAmounts;
      if code in codes then ShowsNumber(r, 55 + 12 * k, 66 + 12 * k, if code in m then m[code] else 0)
      else Columns(r, 55 + 12 * k, 66 + 12 * k) == Repeat(' ', 12)
  {
    hide Paint, BLayout, FormFieldsClear, ShowsNumber, Columns, Repeat, CodeIndex, AmountStart, IsPlainCode;
    var code := "123456789ABCDEFGHI"[k];
    StandsAt(code, k);
    PlainByPosition(code, k);
    AmountReadsBack(p, codes, code);
  }

  lemma PlainByPosition(code: char, k: nat)
    requires k < 18 && code == "123456789ABCDEFGHI"[k]
    ensures IsPlainCode(code) <==> k < 16
  {
  }

  lemma StandsAt(code: char, k: nat)
    requires k < 18 && code == "123456789ABCDEFGHI"[k]
    ensures AmountStart(code) == 55 + 12 * k && TotalStart(code) == 16 + 18 * k && CodeIndex(code) == k
  {
    CodesInOrder(code);
    hide CodeIndex;
  }

  /** The columns of H and I on a B record: 247-258 and 259-270. */
  lemma LastCodesStandAt()
    ensures AmountStart('H') == 247 && AmountStart('I') == 259
  {
    CodesInOrder('H');
    CodesInOrder('I');
  }

  /** The k-th total in columns 16 + 18k to 33 + 18k, or blanks if there is none. */
  ghost predicate ShowsTotalAt(record: string, k: nat, totals: Amounts)
    requires |record| == RECORD_LEN && k < 18
  {
    var code := "123456789ABCDEFGHI"[k];
    if code in totals then ShowsNumber(record, 16 + 18 * k, 33 + 18 * k, totals[code])
    else Columns(record, 16 + 18 * k, 33 + 18 * k) == Repeat(' ', 18)
  }

  lemma TotalsStandAt(record: string, totals: Amounts)
    requires |record| == RECORD_LEN
    requires forall code :: CodeIndex(code) >= 0 ==> ShowsTotal(record, code, totals)
    ensures forall k :: 0 <= k < 18 ==> ShowsTotalAt(record, k, totals)
  {
    hide ShowsNumber, Columns, Repeat, CodeIndex, TotalStart;
    forall k | 0 <= k < 18 ensures ShowsTotalAt(record, k, totals) {
      var code := "123456789ABCDEFGHI"[k];
      StandsAt(code, k);
      assert ShowsTotal(record, code, totals);
    }
  }

  /** The k-th amount code stands in columns 16 + 18k to 33 + 18k of a C record. */
  lemma EndOfPayerTotals(c: EndOfPayer)
    ensures var totals := if c.amountTotals.Some? then c.amountTotals.value else map[];
      forall k :: 0 <= k < 18 ==> ShowsTotalAt(Paint(CLayout(c)), k, totals)
  {
    hide Paint, CLayout, ShowsTotalAt, ShowsTotal, ShowsNumber, ShowsMark, CodeIndex;
    EndOfPayerReadsBack(c);
    TotalsStandAt(Paint(CLayout(c)), TotalsOf(c));
  }

  /** The k-th amount code stands in columns 16 + 18k to 33 + 18k of a K record. */
  lemma StateTotalsAt(s: StateTotals)
    ensures forall k :: 0 <= k < 18 ==> ShowsTotalAt(Paint(KLayout(s)), k, s.amountTotals)
  {
    hide Paint, KLayout, ShowsTotalAt, ShowsTotal, ShowsNumber, ShowsMark, ShowsText, CodeIndex;
    StateTotalsReadBack(s);
    TotalsStandAt(Paint(KLayout(s)), s.amountTotals);
  }

  // ----- form-specific entries and the state block

  /** A form-specific entry that is kept clear of the other fields reads back from its own columns. */
  lemma FormEntryReadsBack(p: Payee, codes: string, col: int)
    requires FormFieldsClear(p.formSpecificFields) && col in p.formSpecificFields
    requires 1 <= col && p.formSpecificFields[col] != "" && col + |p.formSpecificFields[col]| - 1 <= RECORD_LEN
    ensures Columns(Paint(BLayout(p, codes)), col, col + |p.formSpecificFields[col]| - 1) == p.formSpecificFields[col]
  {
    hide Paint, BLayout, BNamed, PlainOnly, Layout.Fields, Layout.WellLaid, Layout.Reach, TextField, AllColumns;
    var val, plain := p.formSpecificFields[col], PlainOnly(codes);
    var end := col + |val| - 1;
    EntryIsWritten(p, plain, col);
    BIsWellLaid(p, plain);
    TextReadsBack(BLayout(p, plain), col, end, val);
    assert InGap(col, end);
    SameColumnsOutsideHI(p, codes, col, end);
    ExactFill(val);
  }

  lemma ExactFill(s: string)
    ensures BlankFill(s, |s|) == s
  {
  }

  lemma EntryIsWritten(p: Payee, codes: string, col: int)
    requires col in p.formSpecificFields && IsWritten(col, p.formSpecificFields[col])
    ensures TextField(col, col + |p.formSpecificFields[col]| - 1, p.formSpecificFields[col]) in
            BLayout(p, codes).Fields()
  {
    hide BNamed, AddFormFields, Layout.WellLaid, Layout.Fields, Layout.Reach, TextField, NumberField, AllColumns;
    var m := p.formSpecificFields;
    AllColumnsTakeAll(m);
    FormFieldsAdded(BNamed(p, codes), m, AllColumns());
    assert FormFieldOf(FormField(col, m[col]), AllColumns(), m);
    StateKeepsFields(AddFormFields(BNamed(p, codes), m, AllColumns()), p.stateInfo);
  }

  lemma StateKeepsFields(l: Layout, s: StateInfo)
    ensures l.Fields() <= AddStateInfo(l, s).Fields()
  {
    hide Layout.Fields, Layout.WellLaid, Layout.Reach, TextField, NumberField;
  }

  /** The state block of a B record: all four fields if any one of them is set, and blanks only if none is. */
  lemma StateBlock(p: Payee, codes: string)
    requires FormFieldsClear(p.formSpecificFields)
    ensures var r, s := Paint(BLayout(p, codes)), p.stateInfo;
      if s.specialDataEntries == "" && s.stateIncomeTaxWithheld == 0 && s.localIncomeTaxWithheld == 0
         && s.combinedFedStateCode == ""
      then Columns(r, 663, 748) == Repeat(' ', 86)
      else
        && ShowsText(r, 663, 722, s.specialDataEntries)
        && ShowsNumber(r, 723, 734, s.stateIncomeTaxWithheld)
        && ShowsNumber(r, 735, 746, s.localIncomeTaxWithheld)
        && ShowsText(r, 747, 748, s.combinedFedStateCode)
  {
    hide Paint, BLayout, FormFieldsClear, ShowsText, ShowsNumber, Columns, Repeat;
    StateInfoReadsBack(p, codes);
  }

  // ----- years, numbers and counts of a filled file

  /** A value of its own if it has one, the default if it was left zero. */
  function Own(x: int, default: int): int {
    if x != 0 then x else default
  }

  /** The year and the sequence number of a record. */
  ghost predicate ShowsYearAndNumber(record: string, year: int, number: int)
    requires |record| == RECORD_LEN
  {
    ShowsNumber(record, 2, 5, year) && ShowsNumber(record, 500, 507, number)
  }

  /** The T record shows its own year, number and payee count, or its place, one, and the number of payees. */
  lemma TransmitterOnWire(d: FileData)
    ensures var r, n := RecordAt(Wire(Fill(d)), 0), |d.payerGroups|;
      && ShowsYearAndNumber(r, d.transmitter.paymentYear, Own(d.transmitter.sequenceNum, 1))
      && ShowsNumber(r, 296, 303, Own(d.transmitter.totalPayees, PayeesBefore(d.payerGroups, n)))
  {
    var f := Fill(d);
    assert f.transmitter.paymentYear == d.transmitter.paymentYear;
    hide TLayout, FLayout, Paint, Render, Wire, FileRecord, FileRecords, RecordCount, RecordsBefore, RecordAt,
      ShowsNumber, ShowsText, ShowsDigits, ShowsMark, Upper, BlankFill, AllRecords, FillGroups, FillStates,
      PayeesBefore;
    FilePositions(f);
    SlotRecord(f, 0, TLayout(f.transmitter));
    TransmitterReadsBack(f.transmitter);
  }

  /** The year a payer's record shows: its own, or the transmitter's. */
  function PayerYear(d: FileData, i: nat): int
    requires i < |d.payerGroups|
  {
    Own(d.payerGroups[i].payer.paymentYear, d.transmitter.paymentYear)
  }

  lemma FilledAtPlace(d: FileData, i: nat)
    requires i < |d.payerGroups|
    ensures Fill(d).payerGroups[i] == FillGroup(d.payerGroups[i], GroupStart(d, i) + 1, d.transmitter.paymentYear)
  {
    hide FillGroup, RecordsBefore, PayeesBefore;
  }

  lemma FilledYears(g: PayerGroup, number: int, year: int)
    ensures var f, y := FillGroup(g, number, year), Own(g.payer.paymentYear, year);
      && |f.payees| == |g.payees|
      && f.payer.paymentYear == y && f.payer.sequenceNum == Own(g.payer.sequenceNum, number)
      && f.endOfPayer.sequenceNum == Own(g.endOfPayer.sequenceNum, number + |g.payees| + 1)
      && f.endOfPayer.numPayees == Own(g.endOfPayer.numPayees, |g.payees|)
      && (g.endOfPayer.amountTotals.Some? ==> f.endOfPayer.amountTotals == g.endOfPayer.amountTotals)
      && forall j :: 0 <= j < |g.payees| ==>
        && f.payees[j].paymentYear == Own(g.payees[j].paymentYear, y)
        && f.payees[j].sequenceNum == Own(g.payees[j].sequenceNum, number + j + 1)
        && f.payees[j].formSpecificFields == g.payees[j].formSpecificFields
  {
    hide GroupTotals;
  }

  lemma FilledParties(d: FileData, i: nat)
    requires i < |d.payerGroups|
    ensures var f, g := Fill(d), d.payerGroups[i];
      && |f.payerGroups| == |d.payerGroups| && |f.payerGroups[i].payees| == |g.payees|
      && GroupStart(f, i) == GroupStart(d, i)
      && f.payerGroups[i].payer.paymentYear == PayerYear(d, i)
      && f.payerGroups[i].payer.sequenceNum == Own(g.payer.sequenceNum, GroupStart(d, i) + 1)
      && f.payerGroups[i].endOfPayer.sequenceNum == Own(g.endOfPayer.sequenceNum, GroupStart(d, i) + |g.payees| + 2)
      && f.payerGroups[i].endOfPayer.numPayees == Own(g.endOfPayer.numPayees, |g.payees|)
      && (g.endOfPayer.amountTotals.Some? ==> f.payerGroups[i].endOfPayer.amountTotals == g.endOfPayer.amountTotals)
      && forall j :: 0 <= j < |g.payees| ==>
        && f.payerGroups[i].payees[j].paymentYear == Own(g.payees[j].paymentYear, PayerYear(d, i))
        && f.payerGroups[i].payees[j].sequenceNum == Own(g.payees[j].sequenceNum, GroupStart(d, i) + j + 2)
        && f.payerGroups[i].payees[j].formSpecificFields == g.payees[j].formSpecificFields
  {
    hide Fill, FillGroup, GroupStart, Own;
    FilledGroup(d, i);
    FilledAtPlace(d, i);
    FilledYears(d.payerGroups[i], GroupStart(d, i) + 1, d.transmitter.paymentYear);
  }

  /** An A record shows the payer's own year and number, or the transmitter's year and its place in the file. */
  lemma PayerOnWire(d: FileData, i: nat)
    requires i < |d.payerGroups|
    ensures ShowsYearAndNumber(RecordAt(Wire(Fill(d)), GroupStart(d, i)), PayerYear(d, i),
                               Own(d.payerGroups[i].payer.sequenceNum, GroupStart(d, i) + 1))
  {
    hide Fill, ALayout, BLayout, CLayout, Paint, Render, Wire, FileRecord, RecordCount, RecordAt, GroupStart,
      GroupRecords, ShowsNumber, ShowsText, ShowsDigits, ShowsMark, Upper, AlnumOnly;
    var f := Fill(d);
    FilledParties(d, i);
    GroupPosition(f, i, 0);
    PayerComesFirst(f.payerGroups[i]);
    SlotRecord(f, GroupStart(f, i), ALayout(f.payerGroups[i].payer));
    PayerReadsBack(f.payerGroups[i].payer);
  }

  lemma PayerComesFirst(g: PayerGroup)
    ensures GroupRecords(g)[0] == Render(ALayout(g.payer))
  {
    hide ALayout, BLayout, CLayout, Render;
  }

  /** A B record shows the payee's own year and number, or its payer's year and its place in the file. */
  lemma PayeeYearOnWire(d: FileData, i: nat, j: nat)
    requires i < |d.payerGroups| && j < |d.payerGroups[i].payees|
    requires FormFieldsClear(d.payerGroups[i].payees[j].formSpecificFields)
    ensures var p := d.payerGroups[i].payees[j];
      ShowsYearAndNumber(RecordAt(Wire(Fill(d)), GroupStart(d, i) + 1 + j), Own(p.paymentYear, PayerYear(d, i)),
                         Own(p.sequenceNum, GroupStart(d, i) + j + 2))
  {
    hide Fill, BLayout, Paint, Wire, RecordAt, GroupStart, FormFieldsClear, ShowsNumber, ShowsText, ShowsDigits,
      ShowsMark, ShowsName, NameIsClear, ShowsAmount, Upper, AlnumOnly;
    var f := Fill(d);
    FilledParties(d, i);
    PayeeOnWire(f, i, j);
    PayeeReadsBack(f.payerGroups[i].payees[j], f.payerGroups[i].payer.amountCodes);
  }

  /** A C record shows its own count and number, or the number of its payees and its place in the file; and its own
      totals if it has any. */
  lemma EndOfPayerCountOnWire(d: FileData, i: nat)
    requires i < |d.payerGroups|
    ensures var g := d.payerGroups[i];
      var r := RecordAt(Wire(Fill(d)), GroupStart(d, i) + 1 + |g.payees|);
      && ShowsNumber(r, 2, 9, Own(g.endOfPayer.numPayees, |g.payees|))
      && ShowsNumber(r, 500, 507, Own(g.endOfPayer.sequenceNum, GroupStart(d, i) + |g.payees| + 2))
      && (g.endOfPayer.amountTotals.Some? ==>
            forall k :: 0 <= k < 18 ==> ShowsTotalAt(r, k, g.endOfPayer.amountTotals.value))
  {
    hide Fill, CLayout, Paint, Wire, RecordAt, GroupStart, ShowsNumber, ShowsMark, ShowsTotal, ShowsTotalAt, CodeIndex;
    var f := Fill(d);
    FilledParties(d, i);
    EndOfPayerOnWire(f, i);
    EndOfPayerReadsBack(f.payerGroups[i].endOfPayer);
    EndOfPayerTotals(f.payerGroups[i].endOfPayer);
  }

  /** The F record shows its own counts and number, or the numbers of payers and payees and its place, the last. */
  lemma EndOfFileOnWire(d: FileData)
    ensures var r, n := RecordAt(Wire(Fill(d)), RecordCount(d) - 1), |d.payerGroups|;
      && ShowsNumber(r, 2, 9, Own(d.endOfFile.numPayers, n))
      && ShowsNumber(r, 22, 29, Own(d.endOfFile.numPayees, PayeesBefore(d.payerGroups, n)))
      && ShowsNumber(r, 500, 507, Own(d.endOfFile.sequenceNum, RecordCount(d)))
  {
    var f := Fill(d);
    SameRecordCount(d);
    hide TLayout, FLayout, Paint, Render, Wire, FileRecord, FileRecords, RecordsBefore, RecordAt, ShowsNumber,
      ShowsText, ShowsDigits, ShowsMark, Upper, BlankFill, AllRecords, FillGroups, FillStates, PayeesBefore;
    FilePositions(f);
    SlotRecord(f, RecordCount(f) - 1, FLayout(f.endOfFile));
    EndOfFileReadsBack(f.endOfFile);
  }

  lemma SameRecordCount(d: FileData)
    ensures RecordCount(Fill(d)) == RecordCount(d)
  {
    CountsUnchanged(d.payerGroups, d.transmitter.paymentYear, |d.payerGroups|);
    hide FillGroup, RecordsBefore;
  }

  /** A K record shows its own number, or its place in the file. */
  lemma StateNumberOnWire(d: FileData, i: nat)
    requires i < |d.stateTotals|
    ensures var at := GroupStart(d, |d.payerGroups|) + i;
      ShowsNumber(RecordAt(Wire(Fill(d)), at), 500, 507, Own(d.stateTotals[i].sequenceNum, at + 1))
  {
    var f := Fill(d);
    SameRecordCount(d);
    hide TLayout, FLayout, KLayout, Paint, Render, Wire, FileRecord, FileRecords, RecordsBefore, RecordAt, ShowsNumber,
      ShowsText, ShowsTotal, ShowsMark, AllRecords, FillGroups, PayeesBefore;
    FilePositions(f);
    SlotRecord(f, GroupStart(f, |f.payerGroups|) + i, KLayout(f.stateTotals[i]));
    StateTotalsReadBack(f.stateTotals[i]);
  }

  // ----- what Marshal leaves and returns

  /** A file stopped at a payer without a form code: the groups before it are as a whole file would leave them, its own
      payer is dated and numbered but nothing else of it is touched, and neither is any group after it. */
  lemma StoppedState(gs: seq<PayerGroup>, left: seq<PayerGroup>, year: int) returns (i: nat)
    requires StoppedAt(gs, left, year)
    ensures i < |gs| == |left| && gs[i].payer.typeOfReturn == ""
    ensures forall j :: 0 <= j < i ==> gs[j].payer.typeOfReturn != "" && left[j] == FillGroups(gs, year)[j]
    ensures left[i].payer == FillGroups(gs, year)[i].payer
    ensures left[i].payees == gs[i].payees && left[i].endOfPayer == gs[i].endOfPayer
    ensures forall j :: i < j < |gs| ==> left[j] == gs[j]
  {
    hide FillPayer, FillPayees, FillEndOfPayer, RecordsBefore;
    i :| 0 <= i < |gs| && IsFirstWithoutCode(gs, i) && left == FilledUpTo(gs, year, i);
    FilledAt(gs, year, i);
  }

  lemma AgreeingPayees(rs: seq<string>, payees: seq<Payee>, codes: string)
    requires ArePayeeRecords(rs, payees, codes)
    requires forall p <- payees :: FormFieldsAgree(p.formSpecificFields, p.stateInfo)
    ensures rs == PayeeRecords(payees, codes)
  {
    hide BLayout, BLayoutInOrder, Render, FormFieldsAgree, IsWalk;
    forall j | 0 <= j < |rs| ensures rs[j] == Render(BLayout(payees[j], codes)) {
      assert IsPayeeRecord(rs[j], payees[j], codes);
      var order :| IsWalk(order, payees[j].formSpecificFields)
                   && rs[j] == Render(BLayoutInOrder(payees[j], codes, order));
      AnyWalkWillDo(payees[j], codes, order);
    }
  }

  lemma AgreeingGroup(out: string, g: PayerGroup)
    requires IsGroupOutput(out, g) && GroupAgrees(g)
    ensures out == Flatten(GroupRecords(g))
  {
    hide ALayout, CLayout, Render, Flatten, GroupRecords, PayeeRecords, ArePayeeRecords, FormFieldsAgree;
    var rs :| ArePayeeRecords(rs, g.payees, g.payer.amountCodes)
              && out == Render(ALayout(g.payer)) + Flatten(rs) + Render(CLayout(g.endOfPayer));
    AgreeingPayees(rs, g.payees, g.payer.amountCodes);
    GroupIsFlat(g);
  }

  lemma {:induction false} AgreeingGroups(outs: seq<string>, gs: seq<PayerGroup>)
    requires AreGroupOutputs(outs, gs) && forall g <- gs :: GroupAgrees(g)
    ensures Flatten(outs) == Flatten(GroupsRecords(gs))
  {
    hide Flatten, GroupsRecords, GroupRecords, IsGroupOutput, GroupAgrees;
    FlattenBase();
    NoGroups();
    if gs == [] {
      assert outs == [];
    } else {
      var n := |gs| - 1;
      AgreeingGroups(outs[..n], gs[..n]);
      AgreeingGroup(outs[n], gs[n]);
      assert gs == gs[..n] + [gs[n]] && outs == outs[..n] + [outs[n]];
      GroupsRecordsSnoc(gs[..n], gs[n]);
      FlattenConcat(GroupsRecords(gs[..n]), GroupRecords(gs[n]));
      FlattenSnoc(outs[..n], outs[n]);
    }
  }

  /** What Marshal may return for a file whose entries agree is one string: the file's records in order. */
  lemma AgreeingOutput(out: string, d: FileData)
    requires IsFileOutput(out, d) && forall g <- d.payerGroups :: GroupAgrees(g)
    ensures out == Wire(d)
  {
    hide TLayout, FLayout, Render, Flatten, GroupsRecords, StateRecords, Wire, AreGroupOutputs, GroupAgrees;
    var outs :| AreGroupOutputs(outs, d.payerGroups)
                && out == Render(TLayout(d.transmitter)) + (Flatten(outs) + Flatten(StateRecords(d.stateTotals)))
                          + Render(FLayout(d.endOfFile));
    AgreeingGroups(outs, d.payerGroups);
    FileIsFlat(d);
    AppendAssoc(Render(TLayout(d.transmitter)), Flatten(outs), Flatten(StateRecords(d.stateTotals)));
  }
}
