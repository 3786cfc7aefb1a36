/** The record renderers: each writes its fields into a fresh buffer, column by column. */
module FireRender {
  import opened GoBasics
  import opened Layouts
  import opened RecordBuffer
  import opened FireRecords
  import opened FireLayouts

  method MarshalTransmitter(t: Transmitter) returns (out: string)
    ensures out == Render(TLayout(t))
  {
    hide RecordBuf.Valid, Paint, TextField, DigitsField, NumberField, Upper, AlnumOnly, BlankFill,
      Layout.WellLaid, Layout.Fields, Layout.Reach;
    var r := new RecordBuf();
    r.PutChar(1, 'T');
    r.PutIntZeroPad(2, 5, t.paymentYear);
    r.PutBoolMark(6, t.priorYear, 'P');
    r.PutDigits(7, 15, t.tin);
    r.PutString(16, 20, BlankFill(t.tcc, 5));
    r.PutBoolMark(28, t.testFileInd, 'T');
    r.PutBoolMark(29, t.foreignEntity, '1');
    r.PutString(30, 69, t.transmitterName);
    r.PutString(70, 109, t.transmitterNameCont);
    r.PutString(110, 149, t.companyName);
    r.PutString(150, 189, t.companyNameCont);
    r.PutString(190, 229, t.companyMailingAddress);
    r.PutString(230, 269, t.companyCity);
    r.PutUpper(270, 271, t.companyState);
    r.PutDigits(272, 280, t.companyZip);
    r.PutIntZeroPad(296, 303, t.totalPayees);
    r.PutString(304, 343, t.contactName);
    r.PutString(344, 358, t.contactPhone);
    r.PutString(359, 408, t.contactEmail);
    r.PutIntZeroPad(500, 507, t.sequenceNum);
    r.PutString(519, 519, t.vendorIndicator);
    r.PutString(520, 559, t.vendorName);
    r.PutString(560, 599, t.vendorMailingAddress);
    r.PutString(600, 639, t.vendorCity);
    r.PutUpper(640, 641, t.vendorState);
    r.PutDigits(642, 650, t.vendorZip);
    r.PutString(651, 690, t.vendorContactName);
    r.PutString(691, 705, t.vendorContactPhone);
    r.PutBoolMark(740, t.vendorForeignEntityInd, '1');
    out := r.Bytes();
  }

  method MarshalPayer(p: Payer) returns (out: Result<string, FireError>)
    ensures out == if p.typeOfReturn == "" then Err(UnsupportedFormCode) else Ok(Render(ALayout(p)))
  {
    hide RecordBuf.Valid, Paint, TextField, DigitsField, NumberField, Upper, AlnumOnly, BlankFill,
      Layout.WellLaid, Layout.Fields, Layout.Reach;
    var r := new RecordBuf();
    r.PutChar(1, 'A');
    r.PutIntZeroPad(2, 5, p.paymentYear);
    r.PutBoolMark(6, p.cfsfInd, '1');
    r.PutDigits(12, 20, p.tin);
    r.PutAlnum(21, 24, p.nameControl);
    r.PutBoolMark(25, p.lastFilingInd, '1');
    if p.typeOfReturn == "" {
      return Err(UnsupportedFormCode);
    }
    r.PutString(26, 27, p.typeOfReturn);
    r.PutString(28, 45, p.amountCodes);
    r.PutString(52, 91, p.name);
    r.PutString(92, 131, p.nameCont);
    r.PutString(132, 171, p.shippingAddress);
    r.PutString(172, 211, p.city);
    r.PutUpper(212, 213, p.state);
    r.PutDigits(214, 222, p.zip);
    r.PutString(223, 237, p.phone);
    r.PutIntZeroPad(500, 507, p.sequenceNum);
    var bytes := r.Bytes();
    return Ok(bytes);
  }

  /** The amounts at the payer's codes, in the order of the code string. */
  method PutAmounts(r: RecordBuf, amountCodes: string, amounts: Amounts)
    requires r.Valid()
    modifies r`layout, r.buf
    ensures r.Valid() && r.layout == AddAmounts(old(r.layout), amountCodes, amounts)
  {
    for i := 0 to |amountCodes|
      invariant r.Valid() && r.layout == AddAmounts(old(r.layout), amountCodes[..i], amounts)
    {
      assert amountCodes[..i + 1][..i] == amountCodes[..i];
      var c := amountCodes[i];
      var start, end, ok := AmountColRange(c);
      if ok {
        r.PutCents(start, end, Get(amounts, c));
      }
    }
    assert amountCodes[..|amountCodes|] == amountCodes;
  }

  lemma NoFormFieldsYet(l: Layout, m: map<int, string>)
    ensures AddFormFields(l, m, []) == l
  {
  }

  lemma NextFormField(l: Layout, m: map<int, string>, order: seq<int>, col: int)
    requires col in m
    ensures var rest := AddFormFields(l, m, order);
      AddFormFields(l, m, order + [col]) == if IsWritten(col, m[col]) then Then(rest, FormField(col, m[col])) else rest
  {
    assert (order + [col])[..|order|] == order;
  }

  lemma DroppedField(l: Layout, col: int, val: string)
    requires 1 <= col && !IsWritten(col, val)
    ensures Paint(Then(l, FormField(col, val))) == Paint(l)
  {
  }

  /** The form-specific fields, in whatever order the map yields them. */
  method PutFormFields(r: RecordBuf, m: map<int, string>) returns (ghost order: seq<int>)
    requires r.Valid()
    modifies r`layout, r.buf
    ensures r.Valid() && r.layout == AddFormFields(old(r.layout), m, order)
    ensures IsWalk(order, m)
  {
    hide Paint, AddFormFields, TextField, RecordBuf.Valid;
    var rest := m.Keys;
    order := [];
    NoFormFieldsYet(r.layout, m);
    while rest != {}
      invariant rest <= m.Keys && forall c :: c in order <==> c in m && c !in rest
      invariant forall i, j :: 0 <= i < j < |order| ==> order[i] != order[j]
      invariant r.Valid() && r.layout == AddFormFields(old(r.layout), m, order)
      decreases |rest|
    {
      ghost var some := SomeMember(rest);
      var col :| col in rest;
      rest := rest - {col};
      ghost var done := r.layout;
      var val := m[col];
      NextFormField(old(r.layout), m, order, col);
      if 1 <= col <= RECORD_LEN {
        r.PutString(col, col + |val| - 1, val);
        if !IsWritten(col, val) {
          DroppedField(done, col, val);
          r.Restate(done);
        }
      }
      order := order + [col];
    }
  }

  lemma AnyWalkWillDo(p: Payee, codes: string, order: seq<int>)
    requires IsWalk(order, p.formSpecificFields) && FormFieldsAgree(p.formSpecificFields, p.stateInfo)
    ensures Render(BLayoutInOrder(p, codes, order)) == Render(BLayout(p, codes))
  {
    AllColumnsTakeAll(p.formSpecificFields);
    BIgnoresFormOrder(p, codes, order, AllColumns());
    hide Paint, BLayoutInOrder, FormFieldsAgree, IsWalk, AllColumns;
  }

  method MarshalPayee(p: Payee, amountCodes: string) returns (out: string, ghost order: seq<int>)
    ensures out == Render(BLayoutInOrder(p, amountCodes, order))
    ensures IsWalk(order, p.formSpecificFields)
    ensures FormFieldsAgree(p.formSpecificFields, p.stateInfo) ==> out == Render(BLayout(p, amountCodes))
  {
    hide RecordBuf.Valid, Paint, TextField, DigitsField, NumberField, Upper, AlnumOnly, BlankFill,
      FormFieldsAgree, Layout.WellLaid, Layout.Fields, Layout.Reach;
    var r := new RecordBuf();
    r.PutChar(1, 'B');
    r.PutIntZeroPad(2, 5, p.paymentYear);
    r.PutString(6, 6, p.correctedReturnInd);
    r.PutAlnum(7, 10, p.nameControl);
    r.PutString(11, 11, p.typeOfTIN);
    r.PutDigits(12, 20, p.tin);
    r.PutString(21, 40, p.payerAccountNum);
    r.PutString(41, 44, p.payerOfficeCode);
    assert r.layout == BHead(p);
    hide BHead;
    PutAmounts(r, amountCodes, p.paymentAmounts);
    r.PutBoolMark(247, p.foreignCountryInd, '1');
    r.PutString(248, 287, p.firstNameLine);
    r.PutString(288, 327, p.secondNameLine);
    r.PutString(367, 406, p.mailingAddress);
    r.PutString(407, 446, p.city);
    r.PutUpper(447, 448, p.state);
    r.PutDigits(449, 457, p.zip);
    r.PutIntZeroPad(500, 507, p.sequenceNum);
    r.PutBoolMark(545, p.secondTINNotice, '2');
    assert r.layout == BNamed(p, amountCodes);
    hide BNamed, AddPayee, AddAmounts, AddFormFields;
    order := PutFormFields(r, p.formSpecificFields);
    if p.stateInfo.specialDataEntries != "" || p.stateInfo.combinedFedStateCode != ""
       || p.stateInfo.stateIncomeTaxWithheld != 0 || p.stateInfo.localIncomeTaxWithheld != 0 {
      r.PutString(663, 722, p.stateInfo.specialDataEntries);
      r.PutCents(723, 734, p.stateInfo.stateIncomeTaxWithheld);
      r.PutCents(735, 746, p.stateInfo.localIncomeTaxWithheld);
      r.PutString(747, 748, p.stateInfo.combinedFedStateCode);
    }
    out := r.Bytes();
    if FormFieldsAgree(p.formSpecificFields, p.stateInfo) {
      AnyWalkWillDo(p, amountCodes, order);
    }
  }

  /** The totals, in whatever order the map yields them; the bytes are those of the code order. */
  method PutTotals(r: RecordBuf, totals: Amounts)
    requires r.Valid() && r.layout.WellLaid() && r.layout.Reach() <= 15
    modifies r`layout, r.buf
    ensures r.Valid() && r.layout == AddTotals(old(r.layout), CODES, totals)
  {
    ghost var before := r.layout;
    var rest := totals.Keys;
    ghost var order := "";
    while rest != {}
      invariant rest <= totals.Keys && forall c :: c in order <==> c in totals && c !in rest
      invariant r.Valid() && r.layout == AddTotals(before, order, totals)
      decreases |rest|
    {
      var code :| code in rest;
      rest := rest - {code};
      var start, end, ok := AmountTotalsRange(code, 16);
      if ok {
        r.PutCents(start, end, totals[code]);
      }
      assert (order + [code])[..|order|] == order;
      order := order + [code];
    }
    TotalsIgnoreOrder(before, order, totals);
    r.Restate(AddTotals(before, CODES, totals));
  }

  method MarshalEndOfPayer(c: EndOfPayer) returns (out: string)
    ensures out == Render(CLayout(c))
  {
    hide RecordBuf.Valid, Paint, TextField, DigitsField, NumberField, Upper, AlnumOnly, BlankFill;
    var r := new RecordBuf();
    r.PutChar(1, 'C');
    r.PutIntZeroPad(2, 9, c.numPayees);
    assert r.layout == CountedHead('C', c.numPayees);
    PutTotals(r, TotalsOf(c));
    r.PutIntZeroPad(500, 507, c.sequenceNum);
    out := r.Bytes();
  }

  method MarshalStateTotals(k: StateTotals) returns (out: string)
    ensures out == Render(KLayout(k))
  {
    hide RecordBuf.Valid, Paint, TextField, DigitsField, NumberField, Upper, AlnumOnly, BlankFill;
    var r := new RecordBuf();
    r.PutChar(1, 'K');
    r.PutIntZeroPad(2, 9, k.numPayees);
    assert r.layout == CountedHead('K', k.numPayees);
    PutTotals(r, k.amountTotals);
    r.PutIntZeroPad(500, 507, k.sequenceNum);
    r.PutCents(707, 724, k.stateIncomeTaxWithheld);
    r.PutCents(725, 742, k.localIncomeTaxWithheld);
    r.PutString(747, 748, k.combinedFedStateCode);
    out := r.Bytes();
  }

  method MarshalEndOfFile(f: EndOfFile) returns (out: string)
    ensures out == Render(FLayout(f))
  {
    hide RecordBuf.Valid, Paint, TextField, DigitsField, NumberField, Upper, AlnumOnly, BlankFill,
      Layout.WellLaid, Layout.Fields, Layout.Reach;
    var r := new RecordBuf();
    r.PutChar(1, 'F');
    r.PutIntZeroPad(2, 9, f.numPayers);
    r.PutIntZeroPad(22, 29, f.numPayees);
    r.PutIntZeroPad(500, 507, f.sequenceNum);
    out := r.Bytes();
  }
}
