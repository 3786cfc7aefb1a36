/** Reading rendered records: every field of every record type shows the value put there. */
module FireReading {
  import opened Decimal
  import opened Layouts
  import opened RecordBuffer
  import opened FireRecords
  import opened FireLayouts

  /** Every field of a T record. */
  lemma TransmitterReadsBack(t: Transmitter)
    ensures var r := Paint(TLayout(t));
        && ShowsMark(r, 1, true, 'T')
        && ShowsNumber(r, 2, 5, t.paymentYear)
        && ShowsMark(r, 6, t.priorYear, 'P')
        && ShowsDigits(r, 7, 15, t.tin)
        && ShowsText(r, 16, 20, BlankFill(t.tcc, 5))
        && ShowsMark(r, 28, t.testFileInd, 'T')
        && ShowsMark(r, 29, t.foreignEntity, '1')
        && ShowsText(r, 30, 69, t.transmitterName)
        && ShowsText(r, 70, 109, t.transmitterNameCont)
        && ShowsText(r, 110, 149, t.companyName)
        && ShowsText(r, 150, 189, t.companyNameCont)
        && ShowsText(r, 190, 229, t.companyMailingAddress)
        && ShowsText(r, 230, 269, t.companyCity)
        && ShowsText(r, 270, 271, Upper(t.companyState))
        && ShowsDigits(r, 272, 280, t.companyZip)
        && ShowsNumber(r, 296, 303, t.totalPayees)
        && ShowsText(r, 304, 343, t.contactName)
        && ShowsText(r, 344, 358, t.contactPhone)
        && ShowsText(r, 359, 408, t.contactEmail)
        && ShowsNumber(r, 500, 507, t.sequenceNum)
        && ShowsText(r, 519, 519, t.vendorIndicator)
        && ShowsText(r, 520, 559, t.vendorName)
        && ShowsText(r, 560, 599, t.vendorMailingAddress)
        && ShowsText(r, 600, 639, t.vendorCity)
        && ShowsText(r, 640, 641, Upper(t.vendorState))
        && ShowsDigits(r, 642, 650, t.vendorZip)
        && ShowsText(r, 651, 690, t.vendorContactName)
        && ShowsText(r, 691, 705, t.vendorContactPhone)
        && ShowsMark(r, 740, t.vendorForeignEntityInd, '1')
  {
    hide Paint, Layout.Fields, Layout.WellLaid;
    var l := TLayout(t);
    MarkReadsBack(l, 1, true, 'T');
    NumberReadsBack(l, 2, 5, t.paymentYear);
    MarkReadsBack(l, 6, t.priorYear, 'P');
    DigitsReadBack(l, 7, 15, t.tin);
    TextReadsBack(l, 16, 20, BlankFill(t.tcc, 5));
    MarkReadsBack(l, 28, t.testFileInd, 'T');
    MarkReadsBack(l, 29, t.foreignEntity, '1');
    TextReadsBack(l, 30, 69, t.transmitterName);
    TextReadsBack(l, 70, 109, t.transmitterNameCont);
    TextReadsBack(l, 110, 149, t.companyName);
    TextReadsBack(l, 150, 189, t.companyNameCont);
    TextReadsBack(l, 190, 229, t.companyMailingAddress);
    TextReadsBack(l, 230, 269, t.companyCity);
    TextReadsBack(l, 270, 271, Upper(t.companyState));
    DigitsReadBack(l, 272, 280, t.companyZip);
    NumberReadsBack(l, 296, 303, t.totalPayees);
    TextReadsBack(l, 304, 343, t.contactName);
    TextReadsBack(l, 344, 358, t.contactPhone);
    TextReadsBack(l, 359, 408, t.contactEmail);
    NumberReadsBack(l, 500, 507, t.sequenceNum);
    TextReadsBack(l, 519, 519, t.vendorIndicator);
    TextReadsBack(l, 520, 559, t.vendorName);
    TextReadsBack(l, 560, 599, t.vendorMailingAddress);
    TextReadsBack(l, 600, 639, t.vendorCity);
    TextReadsBack(l, 640, 641, Upper(t.vendorState));
    DigitsReadBack(l, 642, 650, t.vendorZip);
    TextReadsBack(l, 651, 690, t.vendorContactName);
    TextReadsBack(l, 691, 705, t.vendorContactPhone);
    MarkReadsBack(l, 740, t.vendorForeignEntityInd, '1');
  }

  /** Every field of an A record. */
  lemma PayerReadsBack(p: Payer)
    ensures var r := Paint(ALayout(p));
        && ShowsMark(r, 1, true, 'A')
        && ShowsNumber(r, 2, 5, p.paymentYear)
        && ShowsMark(r, 6, p.cfsfInd, '1')
        && ShowsDigits(r, 12, 20, p.tin)
        && ShowsText(r, 21, 24, Upper(AlnumOnly(p.nameControl)))
        && ShowsMark(r, 25, p.lastFilingInd, '1')
        && ShowsText(r, 26, 27, p.typeOfReturn)
        && ShowsText(r, 28, 45, p.amountCodes)
        && ShowsText(r, 52, 91, p.name)
        && ShowsText(r, 92, 131, p.nameCont)
        && ShowsText(r, 132, 171, p.shippingAddress)
        && ShowsText(r, 172, 211, p.city)
        && ShowsText(r, 212, 213, Upper(p.state))
        && ShowsDigits(r, 214, 222, p.zip)
        && ShowsText(r, 223, 237, p.phone)
        && ShowsNumber(r, 500, 507, p.sequenceNum)
  {
    hide Paint, Layout.Fields, Layout.WellLaid;
    var l := ALayout(p);
    MarkReadsBack(l, 1, true, 'A');
    NumberReadsBack(l, 2, 5, p.paymentYear);
    MarkReadsBack(l, 6, p.cfsfInd, '1');
    DigitsReadBack(l, 12, 20, p.tin);
    TextReadsBack(l, 21, 24, Upper(AlnumOnly(p.nameControl)));
    MarkReadsBack(l, 25, p.lastFilingInd, '1');
    TextReadsBack(l, 26, 27, p.typeOfReturn);
    TextReadsBack(l, 28, 45, p.amountCodes);
    TextReadsBack(l, 52, 91, p.name);
    TextReadsBack(l, 92, 131, p.nameCont);
    TextReadsBack(l, 132, 171, p.shippingAddress);
    TextReadsBack(l, 172, 211, p.city);
    TextReadsBack(l, 212, 213, Upper(p.state));
    DigitsReadBack(l, 214, 222, p.zip);
    TextReadsBack(l, 223, 237, p.phone);
    NumberReadsBack(l, 500, 507, p.sequenceNum);
  }

  /** Every field of an F record. */
  lemma EndOfFileReadsBack(f: EndOfFile)
    ensures var r := Paint(FLayout(f));
        && ShowsMark(r, 1, true, 'F')
        && ShowsNumber(r, 2, 9, f.numPayers)
        && ShowsNumber(r, 22, 29, f.numPayees)
        && ShowsNumber(r, 500, 507, f.sequenceNum)
  {
    hide Paint, Layout.Fields, Layout.WellLaid;
    var l := FLayout(f);
    MarkReadsBack(l, 1, true, 'F');
    NumberReadsBack(l, 2, 9, f.numPayers);
    NumberReadsBack(l, 22, 29, f.numPayees);
    NumberReadsBack(l, 500, 507, f.sequenceNum);
  }

  lemma BlankColumns(l: Layout, start: int, end: int)
    requires l.WellLaid() && 1 <= start <= end <= RECORD_LEN
    requires forall f <- l.Fields() :: f.end < start || end < f.start
    ensures Columns(Paint(l), start, end) == Repeat(' ', end - start + 1)
  {
    hide Paint, Layout.Fields;
    forall k | start - 1 <= k < end ensures Paint(l)[k] == ' ' {
      forall f <- l.Fields() ensures !f.Covers(k) {
        assert f.Fits();
      }
      UncoveredColumn(l, k);
    }
  }

  /** The columns of one amount code on a C or K record: its total, or blanks when it has none. */
  ghost predicate ShowsTotal(record: string, code: char, totals: Amounts)
    requires |record| == RECORD_LEN && CodeIndex(code) >= 0
  {
    if code in totals then ShowsNumber(record, TotalStart(code), TotalStart(code) + 17, totals[code])
    else Columns(record, TotalStart(code), TotalStart(code) + 17) == Repeat(' ', 18)
  }

  lemma TotalElsewhere(f: Field, order: string, totals: Amounts, code: char)
    requires TotalOf(f, order, totals) && CodeIndex(code) >= 0 && code !in totals
    ensures f.end < TotalStart(code) || TotalStart(code) + 17 < f.start
  {
    hide TotalField;
    var c :| c in order && CodeIndex(c) >= 0 && c in totals && f == TotalField(c, totals);
    TotalFieldShape(c, totals);
  }

  lemma AbsentTotalIsBlank(l: Layout, base: Layout, totals: Amounts, code: char)
    requires CodeIndex(code) >= 0 && code !in totals && l.WellLaid() && base.Reach() <= 15
    requires forall f <- l.Fields() :: f in base.Fields() || TotalOf(f, CODES, totals) || f.start > 339
    ensures Columns(Paint(l), TotalStart(code), TotalStart(code) + 17) == Repeat(' ', 18)
  {
    hide Paint, Layout.Fields, Layout.WellLaid, TotalOf, Repeat, Columns;
    forall f | TotalOf(f, CODES, totals) { TotalElsewhere(f, CODES, totals, code); }
    forall f <- base.Fields() { base.ReachBounds(f); }
    BlankColumns(l, TotalStart(code), TotalStart(code) + 17);
  }

  lemma TotalsReadBack(l: Layout, base: Layout, totals: Amounts, code: char)
    requires CodeIndex(code) >= 0 && l.WellLaid() && base.Reach() <= 15
    requires forall f <- l.Fields() :: f in base.Fields() || TotalOf(f, CODES, totals) || f.start > 339
    requires forall f :: TotalOf(f, CODES, totals) ==> f in l.Fields()
    ensures ShowsTotal(Paint(l), code, totals)
  {
    hide Paint, Layout.Fields, NumberField, ShowsNumber;
    KnownCodes(code);
    if code in totals {
      assert TotalOf(TotalField(code, totals), CODES, totals);
      NumberReadsBack(l, TotalStart(code), TotalStart(code) + 17, totals[code]);
    } else {
      AbsentTotalIsBlank(l, base, totals, code);
    }
  }

  /** Every field of a C record, and the columns of every amount code. */
  lemma EndOfPayerReadsBack(c: EndOfPayer)
    ensures var r := Paint(CLayout(c));
        && ShowsMark(r, 1, true, 'C')
        && ShowsNumber(r, 2, 9, c.numPayees)
        && ShowsNumber(r, 500, 507, c.sequenceNum)
        && forall code :: CodeIndex(code) >= 0 ==> ShowsTotal(r, code, TotalsOf(c))
  {
    hide Paint, Layout.Fields, Layout.WellLaid, ShowsTotal, AddTotals, NumberField, TotalOf, CountedHead;
    var l, base := CLayout(c), CountedHead('C', c.numPayees);
    CIsWellLaid(c);
    TotalsAdded(base, CODES, TotalsOf(c));
    MarkReadsBack(l, 1, true, 'C');
    NumberReadsBack(l, 2, 9, c.numPayees);
    NumberReadsBack(l, 500, 507, c.sequenceNum);
    NumberFieldShape(500, 507, c.sequenceNum);
    forall code | CodeIndex(code) >= 0 { TotalsReadBack(l, base, TotalsOf(c), code); }
  }

  /** Every field of a K record, and the columns of every amount code. */
  lemma StateTotalsReadBack(k: StateTotals)
    ensures var r := Paint(KLayout(k));
        && ShowsMark(r, 1, true, 'K')
        && ShowsNumber(r, 2, 9, k.numPayees)
        && ShowsNumber(r, 500, 507, k.sequenceNum)
        && ShowsNumber(r, 707, 724, k.stateIncomeTaxWithheld)
        && ShowsNumber(r, 725, 742, k.localIncomeTaxWithheld)
        && ShowsText(r, 747, 748, k.combinedFedStateCode)
        && forall code :: CodeIndex(code) >= 0 ==> ShowsTotal(r, code, k.amountTotals)
  {
    hide Paint, Layout.Fields, Layout.WellLaid, ShowsTotal, AddTotals, NumberField, TotalOf, CountedHead;
    var l, base := KLayout(k), CountedHead('K', k.numPayees);
    KIsWellLaid(k);
    TotalsAdded(base, CODES, k.amountTotals);
    MarkReadsBack(l, 1, true, 'K');
    NumberReadsBack(l, 2, 9, k.numPayees);
    NumberReadsBack(l, 500, 507, k.sequenceNum);
    NumberReadsBack(l, 707, 724, k.stateIncomeTaxWithheld);
    NumberReadsBack(l, 725, 742, k.localIncomeTaxWithheld);
    TextReadsBack(l, 747, 748, k.combinedFedStateCode);
    NumberFieldShape(500, 507, k.sequenceNum);
    NumberFieldShape(707, 724, k.stateIncomeTaxWithheld);
    NumberFieldShape(725, 742, k.localIncomeTaxWithheld);
    forall code | CodeIndex(code) >= 0 { TotalsReadBack(l, base, k.amountTotals, code); }
  }
}
