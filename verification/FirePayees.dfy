/** Reading B records: what survives in every column, with or without the codes H and I. */
module FirePayees {
  import opened Decimal
  import opened Layouts
  import opened RecordBuffer
  import opened FireRecords
  import opened FireLayouts
  import opened FireReading

  /** The column ranges of a B record that no named field uses. */
  predicate InGap(start: int, end: int) {
    || 45 <= start <= end <= 54
    || 328 <= start <= end <= 366
    || 458 <= start <= end <= 499
    || 508 <= start <= end <= 544
    || 546 <= start <= end <= 662
  }

  /** The form-specific entries that are written stay apart, in columns no named field uses. */
  ghost predicate FormFieldsClear(m: map<int, string>) {
    FormFieldsApart(m) && forall c :: c in m && IsWritten(c, m[c]) ==> InGap(c, c + |m[c]| - 1)
  }

  predicate AvoidsGaps(f: Field) {
    || f.end <= 44
    || (55 <= f.start && f.end <= 327)
    || (367 <= f.start && f.end <= 457)
    || (500 <= f.start && f.end <= 507)
    || (f.start == 545 && f.end == 545)
  }

  lemma TailAvoidsGaps(l: Layout, p: Payee)
    requires forall f <- l.Fields() :: AvoidsGaps(f)
    ensures forall f <- AddPayee(l, p).Fields() :: AvoidsGaps(f)
  {
    hide Layout.Fields, Layout.WellLaid, Layout.Reach, TextField, DigitsField, Upper;
  }

  lemma NamedAvoidsGaps(p: Payee, codes: string)
    requires PlainCodes(codes)
    ensures forall f <- BNamed(p, codes).Fields() :: AvoidsGaps(f)
  {
    hide Layout.Fields, Layout.WellLaid, AddPayee, AddAmounts, BHead, AmountOf;
    var head := BHead(p);
    forall f <- head.Fields() ensures AvoidsGaps(f) { head.ReachBounds(f); }
    AmountsAdded(head, codes, p.paymentAmounts);
    forall f | AmountOf(f, codes, p.paymentAmounts) ensures AvoidsGaps(f) {
      AmountsCompatible(f, f, codes, p.paymentAmounts);
    }
    TailAvoidsGaps(AddAmounts(head, codes, p.paymentAmounts), p);
  }

  lemma GapsAreApart(f: Field, g: Field)
    requires AvoidsGaps(f) && f.Fits() && InGap(g.start, g.end)
    ensures f.Compatible(g) && g.Compatible(f)
  {
  }

  lemma GapEnds(g: Field)
    requires InGap(g.start, g.end)
    ensures g.end <= 662
  {
  }

  lemma FormFieldsCompatible(f: Field, g: Field, order: seq<int>, m: map<int, string>)
    requires FormFieldsClear(m) && FormFieldOf(f, order, m) && FormFieldOf(g, order, m)
    ensures f.Fits() && InGap(f.start, f.end) && f.Compatible(g)
  {
  }

  /** Form-specific entries in the gaps keep the named fields readable. */
  lemma FormFieldsAreWellLaid(l: Layout, m: map<int, string>, order: seq<int>)
    requires l.WellLaid() && l.Reach() <= 662 && FormFieldsClear(m)
    requires forall f <- l.Fields() :: AvoidsGaps(f)
    ensures AddFormFields(l, m, order).WellLaid() && AddFormFields(l, m, order).Reach() <= 662
  {
    hide AddFormFields, FormFieldOf, FormFieldsClear, InGap, AvoidsGaps, Layout.Fields;
    var r := AddFormFields(l, m, order);
    FormFieldsAdded(l, m, order);
    forall f, g | FormFieldOf(f, order, m) && FormFieldOf(g, order, m) {
      FormFieldsCompatible(f, g, order, m);
    }
    forall f <- l.Fields() { l.ReachBounds(f); }
    forall f <- l.Fields(), g | FormFieldOf(g, order, m) { GapsAreApart(f, g); }
    forall g | FormFieldOf(g, order, m) ensures g.end <= 662 { assert InGap(g.start, g.end); GapEnds(g); }
    ReachOfBound(r, 662);
  }

  lemma BIsWellLaid(p: Payee, codes: string)
    requires PlainCodes(codes) && FormFieldsClear(p.formSpecificFields)
    ensures BLayout(p, codes).WellLaid()
    ensures BNamed(p, codes).Fields() <= BLayout(p, codes).Fields()
    ensures AddFormFields(BNamed(p, codes), p.formSpecificFields, AllColumns()).WellLaid()
    ensures AddFormFields(BNamed(p, codes), p.formSpecificFields, AllColumns()).Reach() <= 662
  {
    hide BNamed, AddFormFields, FormFieldsClear, Layout.WellLaid, Layout.Fields, Layout.Reach, AllColumns, PlainCodes;
    BNamedIsWellLaid(p, codes);
    NamedAvoidsGaps(p, codes);
    FormFieldsAreWellLaid(BNamed(p, codes), p.formSpecificFields, AllColumns());
    FormFieldsAdded(BNamed(p, codes), p.formSpecificFields, AllColumns());
  }

  // ----- codes H and I

  /** The codes of the string without H and I. */
  function PlainOnly(codes: string): (r: string)
    ensures PlainCodes(r)
    ensures forall c :: c in r <==> c in codes && (CodeIndex(c) >= 0 ==> IsPlainCode(c))
  {
    if codes == "" then ""
    else
      var rest, c := PlainOnly(codes[..|codes| - 1]), codes[|codes| - 1];
      assert codes == codes[..|codes| - 1] + [c];
      if CodeIndex(c) >= 0 && !IsPlainCode(c) then rest else rest + [c]
  }

  /** Codes H and I only ever touch columns 247-270. */
  lemma AmountsOutsideHI(l: Layout, codes: string, amounts: Amounts, k: nat)
    requires l.WellLaid() && l.Reach() <= 54
    requires k < 246 || 270 <= k < RECORD_LEN
    ensures Paint(AddAmounts(l, codes, amounts))[k] == Paint(AddAmounts(l, PlainOnly(codes), amounts))[k]
  {
    hide Paint, AddAmounts, Layout.Fields, Layout.WellLaid, Layout.Reach, AmountField, PlainOnly;
    var r, s := AddAmounts(l, codes, amounts), AddAmounts(l, PlainOnly(codes), amounts);
    AmountsAreWellLaid(l, codes, amounts);
    AmountsAreWellLaid(l, PlainOnly(codes), amounts);
    AmountsAdded(l, codes, amounts);
    AmountsAdded(l, PlainOnly(codes), amounts);
    forall f | f in s.Fields() ensures f in r.Fields() {}
    if f :| f in s.Fields() && f.Covers(k) {
      CoveredColumn(r, f, k);
      CoveredColumn(s, f, k);
    } else {
      forall f <- r.Fields() ensures !f.Covers(k) {
        if f !in s.Fields() {
          var c :| c in codes && CodeIndex(c) >= 0 && f == AmountField(c, amounts);
          AmountFieldShape(c, amounts);
          assert c == 'H' || c == 'I';
        }
      }
      UncoveredColumn(r, k);
      UncoveredColumn(s, k);
    }
  }

  lemma SameColumn(l: Layout, l': Layout, f: Field, k: nat)
    requires k < RECORD_LEN && Paint(l)[k] == Paint(l')[k]
    ensures Paint(Then(l, f))[k] == Paint(Then(l', f))[k]
  {
  }

  /** Writing the same further fields over two buffers that agree at a column leaves them in agreement. */
  lemma PayeeColumn(l: Layout, l': Layout, p: Payee, k: nat)
    requires k < RECORD_LEN && Paint(l)[k] == Paint(l')[k]
    ensures Paint(AddPayee(l, p))[k] == Paint(AddPayee(l', p))[k]
  {
    hide Paint, Layout.Fields, Layout.WellLaid, Layout.Reach, TextField, DigitsField, NumberField, Upper;
    var a, b := l, l';
    a, b := OneMore(a, b, MarkField(247, p.foreignCountryInd, '1'), k);
    a, b := OneMore(a, b, TextField(248, 287, p.firstNameLine), k);
    a, b := OneMore(a, b, TextField(288, 327, p.secondNameLine), k);
    a, b := OneMore(a, b, TextField(367, 406, p.mailingAddress), k);
    a, b := OneMore(a, b, TextField(407, 446, p.city), k);
    a, b := OneMore(a, b, TextField(447, 448, Upper(p.state)), k);
    a, b := OneMore(a, b, DigitsField(449, 457, p.zip), k);
    a, b := OneMore(a, b, NumberField(500, 507, p.sequenceNum), k);
    a, b := OneMore(a, b, MarkField(545, p.secondTINNotice, '2'), k);
  }

  lemma OneMore(l: Layout, l': Layout, f: Field, k: nat) returns (a: Layout, b: Layout)
    requires k < RECORD_LEN && Paint(l)[k] == Paint(l')[k]
    ensures a == Then(l, f) && b == Then(l', f) && Paint(a)[k] == Paint(b)[k]
  {
    SameColumn(l, l', f, k);
    a, b := Then(l, f), Then(l', f);
  }

  lemma StateColumn(l: Layout, l': Layout, s: StateInfo, k: nat)
    requires k < RECORD_LEN && Paint(l)[k] == Paint(l')[k]
    ensures Paint(AddStateInfo(l, s))[k] == Paint(AddStateInfo(l', s))[k]
  {
    hide Paint, Layout.Fields, Layout.WellLaid, Layout.Reach, TextField, NumberField;
    if HasStateInfo(s) {
      var a, b := OneMore(l, l', TextField(663, 722, s.specialDataEntries), k);
      a, b := OneMore(a, b, NumberField(723, 734, s.stateIncomeTaxWithheld), k);
      a, b := OneMore(a, b, NumberField(735, 746, s.localIncomeTaxWithheld), k);
      a, b := OneMore(a, b, TextField(747, 748, s.combinedFedStateCode), k);
    }
  }

  lemma {:induction false} FormColumn(l: Layout, l': Layout, m: map<int, string>, order: seq<int>, k: nat)
    requires k < RECORD_LEN && Paint(l)[k] == Paint(l')[k]
    ensures Paint(AddFormFields(l, m, order))[k] == Paint(AddFormFields(l', m, order))[k]
  {
    hide Paint, FormField, IsWritten;
    if order != [] {
      var n := |order| - 1;
      FormColumn(l, l', m, order[..n], k);
      var a, b := AddFormFields(l, m, order[..n]), AddFormFields(l', m, order[..n]);
      if order[n] in m {
        SameColumn(a, b, FormField(order[n], m[order[n]]), k);
      }
    }
  }

  /** Outside columns 247-270 a B record does not depend on the codes H and I at all. */
  lemma BOutsideHI(p: Payee, codes: string, k: nat)
    requires k < 246 || 270 <= k < RECORD_LEN
    ensures Paint(BLayout(p, codes))[k] == Paint(BLayout(p, PlainOnly(codes)))[k]
  {
    hide Paint, AddAmounts, AddPayee, AddFormFields, AddStateInfo, BHead, PlainOnly, AllColumns,
      Layout.Fields, Layout.WellLaid, Layout.Reach;
    var plain, amounts, m := PlainOnly(codes), p.paymentAmounts, p.formSpecificFields;
    var a, b := AddAmounts(BHead(p), codes, amounts), AddAmounts(BHead(p), plain, amounts);
    AmountsOutsideHI(BHead(p), codes, amounts, k);
    PayeeColumn(a, b, p, k);
    FormColumn(AddPayee(a, p), AddPayee(b, p), m, AllColumns(), k);
    StateColumn(AddFormFields(AddPayee(a, p), m, AllColumns()), AddFormFields(AddPayee(b, p), m, AllColumns()),
                p.stateInfo, k);
  }

  // ----- reading a B record

  lemma SameColumnsOutsideHI(p: Payee, codes: string, start: int, end: int)
    requires 1 <= start <= end <= RECORD_LEN && (end <= 246 || 271 <= start)
    ensures Columns(Paint(BLayout(p, codes)), start, end) == Columns(Paint(BLayout(p, PlainOnly(codes))), start, end)
  {
    hide Paint, BLayout, PlainOnly;
    forall k | start - 1 <= k < end { BOutsideHI(p, codes, k); }
  }

  /** The amounts of a B record: a plain code of the payer's string shows its amount, any other plain code is blank. */
  ghost predicate ShowsAmount(record: string, code: char, codes: string, amounts: Amounts)
    requires |record| == RECORD_LEN && IsPlainCode(code)
  {
    if code in codes then ShowsNumber(record, AmountStart(code), AmountStart(code) + 11, Get(amounts, code))
    else Columns(record, AmountStart(code), AmountStart(code) + 11) == Repeat(' ', 12)
  }

  lemma AmountReadsBack(p: Payee, codes: string, code: char)
    requires FormFieldsClear(p.formSpecificFields) && IsPlainCode(code)
    ensures ShowsAmount(Paint(BLayout(p, codes)), code, codes, p.paymentAmounts)
  {
    hide Paint, BLayout, BNamed, PlainOnly, FormFieldsClear, Layout.Fields, Layout.WellLaid, NumberField,
      ShowsNumber, Repeat, Columns;
    var plain, start := PlainOnly(codes), AmountStart(code);
    BIsWellLaid(p, plain);
    SameColumnsOutsideHI(p, codes, start, start + 11);
    if code in codes {
      AmountIsNamed(p, plain, code);
      NumberReadsBack(BLayout(p, plain), start, start + 11, Get(p.paymentAmounts, code));
      SameNumber(Paint(BLayout(p, codes)), Paint(BLayout(p, plain)), start, start + 11, Get(p.paymentAmounts, code));
    } else {
      AmountIsAbsent(p, plain, code);
      BlankColumns(BLayout(p, plain), start, start + 11);
    }
  }

  lemma SameNumber(r: string, s: string, start: int, end: int, v: int)
    requires 1 <= start <= end <= RECORD_LEN == |r| == |s|
    requires Columns(r, start, end) == Columns(s, start, end) && ShowsNumber(s, start, end, v)
    ensures ShowsNumber(r, start, end, v)
  {
  }

  lemma AmountIsNamed(p: Payee, codes: string, code: char)
    requires code in codes && CodeIndex(code) >= 0
    ensures AmountField(code, p.paymentAmounts) in BNamed(p, codes).Fields()
  {
    hide BHead, AddAmounts, AmountField, Layout.Fields, Layout.WellLaid, Layout.Reach;
    AmountsAdded(BHead(p), codes, p.paymentAmounts);
    assert AmountOf(AmountField(code, p.paymentAmounts), codes, p.paymentAmounts);
  }

  /** Every field of a B record lies beside the columns of a plain code that is not in the code string. */
  lemma AmountIsAbsent(p: Payee, codes: string, code: char)
    requires PlainCodes(codes) && FormFieldsClear(p.formSpecificFields)
    requires IsPlainCode(code) && code !in codes
    ensures forall f <- BLayout(p, codes).Fields() :: f.end < AmountStart(code) || AmountStart(code) + 11 < f.start
  {
    hide BHead, AddAmounts, AddFormFields, AmountField, Layout.Fields, Layout.WellLaid, Layout.Reach,
      FormFieldOf, AmountOf, FormFieldsClear, TextField, NumberField, DigitsField, AllColumns, PlainCodes;
    var head, m := BHead(p), p.formSpecificFields;
    forall f <- head.Fields() { head.ReachBounds(f); }
    AmountsAdded(head, codes, p.paymentAmounts);
    forall f | AmountOf(f, codes, p.paymentAmounts) { AmountElsewhere(f, codes, p.paymentAmounts, code); }
    FormFieldsAdded(BNamed(p, codes), m, AllColumns());
    forall f | FormFieldOf(f, AllColumns(), m) { FormFieldsCompatible(f, f, AllColumns(), m); }
    TailBeyondAmounts(AddAmounts(head, codes, p.paymentAmounts), p);
    StateBeyondAmounts(AddFormFields(BNamed(p, codes), m, AllColumns()), p.stateInfo);
  }

  lemma AmountElsewhere(f: Field, codes: string, amounts: Amounts, code: char)
    requires AmountOf(f, codes, amounts) && CodeIndex(code) >= 0 && code !in codes
    ensures f.end < AmountStart(code) || AmountStart(code) + 11 < f.start
  {
    hide AmountField;
    var c :| c in codes && CodeIndex(c) >= 0 && f == AmountField(c, amounts);
    AmountFieldShape(c, amounts);
  }

  lemma TailBeyondAmounts(l: Layout, p: Payee)
    ensures forall f <- AddPayee(l, p).Fields() :: f in l.Fields() || 247 <= f.start
  {
    hide Layout.Fields, Layout.WellLaid, Layout.Reach, TextField, DigitsField, Upper;
  }

  lemma StateBeyondAmounts(l: Layout, s: StateInfo)
    ensures forall f <- AddStateInfo(l, s).Fields() :: f in l.Fields() || 247 <= f.start
  {
    hide Layout.Fields, Layout.WellLaid, Layout.Reach, TextField, DigitsField, Upper;
  }

  lemma TailIsNamed(l: Layout, p: Payee)
    ensures var fs := AddPayee(l, p).Fields();
        && MarkField(247, p.foreignCountryInd, '1') in fs && TextField(248, 287, p.firstNameLine) in fs
        && TextField(288, 327, p.secondNameLine) in fs && TextField(367, 406, p.mailingAddress) in fs
        && TextField(407, 446, p.city) in fs && TextField(447, 448, Upper(p.state)) in fs
        && DigitsField(449, 457, p.zip) in fs && NumberField(500, 507, p.sequenceNum) in fs
        && MarkField(545, p.secondTINNotice, '2') in fs && l.Fields() <= fs
  {
    hide Layout.Fields, Layout.WellLaid, Layout.Reach, TextField, DigitsField, Upper;
  }

  lemma HeadIsNamed(p: Payee)
    ensures var fs := BHead(p).Fields();
        && CharField(1, 'B') in fs && NumberField(2, 5, p.paymentYear) in fs
        && TextField(6, 6, p.correctedReturnInd) in fs
        && TextField(7, 10, Upper(AlnumOnly(p.nameControl))) in fs
        && TextField(11, 11, p.typeOfTIN) in fs && DigitsField(12, 20, p.tin) in fs
        && TextField(21, 40, p.payerAccountNum) in fs && TextField(41, 44, p.payerOfficeCode) in fs
  {
    hide Layout.Fields, Layout.WellLaid, Layout.Reach, TextField, DigitsField, Upper, AlnumOnly;
  }

  lemma BHasNamedFields(p: Payee, codes: string)
    ensures BHead(p).Fields() <= BNamed(p, codes).Fields()
    ensures AddPayee(AddAmounts(BHead(p), codes, p.paymentAmounts), p).Fields() <= BNamed(p, codes).Fields()
  {
    hide BHead, AddPayee, AddAmounts, Layout.Fields, Layout.WellLaid, Layout.Reach;
    AmountsAdded(BHead(p), codes, p.paymentAmounts);
    TailIsNamed(AddAmounts(BHead(p), codes, p.paymentAmounts), p);
  }

  /** What any B record shows, whatever its codes, in the columns H and I do not reach. */
  ghost predicate ShowsPayee(r: string, p: Payee)
    requires |r| == RECORD_LEN
  {
    && ShowsMark(r, 1, true, 'B')
    && ShowsNumber(r, 2, 5, p.paymentYear)
    && ShowsText(r, 6, 6, p.correctedReturnInd)
    && ShowsText(r, 7, 10, Upper(AlnumOnly(p.nameControl)))
    && ShowsText(r, 11, 11, p.typeOfTIN)
    && ShowsDigits(r, 12, 20, p.tin)
    && ShowsText(r, 21, 40, p.payerAccountNum)
    && ShowsText(r, 41, 44, p.payerOfficeCode)
    && ShowsText(r, 288, 327, p.secondNameLine)
    && ShowsText(r, 367, 406, p.mailingAddress)
    && ShowsText(r, 407, 446, p.city)
    && ShowsText(r, 447, 448, Upper(p.state))
    && ShowsDigits(r, 449, 457, p.zip)
    && ShowsNumber(r, 500, 507, p.sequenceNum)
    && ShowsMark(r, 545, p.secondTINNotice, '2')
  }

  ghost predicate ShowsName(r: string, p: Payee)
    requires |r| == RECORD_LEN
  {
    ShowsMark(r, 247, p.foreignCountryInd, '1') && ShowsText(r, 248, 287, p.firstNameLine)
  }

  lemma PlainPayeeReadsBack(p: Payee, codes: string)
    requires PlainCodes(codes) && FormFieldsClear(p.formSpecificFields)
    ensures ShowsPayee(Paint(BLayout(p, codes)), p) && ShowsName(Paint(BLayout(p, codes)), p)
  {
    hide Paint, BLayout, BNamed, AddAmounts, BHead, AddPayee, PlainCodes, FormFieldsClear, Layout.Fields,
      Layout.WellLaid, ShowsMark, ShowsNumber, ShowsText, ShowsDigits, TextField, DigitsField, NumberField, MarkField,
      Upper, AlnumOnly;
    var l := BLayout(p, codes);
    BIsWellLaid(p, codes);
    BHasNamedFields(p, codes);
    HeadIsNamed(p);
    TailIsNamed(AddAmounts(BHead(p), codes, p.paymentAmounts), p);
    CharIsMark(1, 'B');
    MarkReadsBack(l, 1, true, 'B');
    NumberReadsBack(l, 2, 5, p.paymentYear);
    TextReadsBack(l, 6, 6, p.correctedReturnInd);
    TextReadsBack(l, 7, 10, Upper(AlnumOnly(p.nameControl)));
    TextReadsBack(l, 11, 11, p.typeOfTIN);
    DigitsReadBack(l, 12, 20, p.tin);
    TextReadsBack(l, 21, 40, p.payerAccountNum);
    TextReadsBack(l, 41, 44, p.payerOfficeCode);
    MarkReadsBack(l, 247, p.foreignCountryInd, '1');
    TextReadsBack(l, 248, 287, p.firstNameLine);
    TextReadsBack(l, 288, 327, p.secondNameLine);
    TextReadsBack(l, 367, 406, p.mailingAddress);
    TextReadsBack(l, 407, 446, p.city);
    TextReadsBack(l, 447, 448, Upper(p.state));
    DigitsReadBack(l, 449, 457, p.zip);
    NumberReadsBack(l, 500, 507, p.sequenceNum);
    MarkReadsBack(l, 545, p.secondTINNotice, '2');
  }

  lemma CharIsMark(col: int, c: char)
    ensures CharField(col, c) == MarkField(col, true, c)
  {
  }

  lemma SameOutsideHI(p: Payee, r: string, s: string, codes: string)
    requires r == Paint(BLayout(p, codes)) && s == Paint(BLayout(p, PlainOnly(codes)))
    requires ShowsPayee(s, p)
    ensures ShowsPayee(r, p)
  {
    hide Paint, BLayout, PlainOnly, Upper, AlnumOnly, Value, AllDigits, BlankFill, ZeroFill, DigitsOnly;
    forall start, end | 1 <= start <= end <= RECORD_LEN && (end <= 246 || 271 <= start)
      ensures Columns(r, start, end) == Columns(s, start, end)
    {
      SameColumnsOutsideHI(p, codes, start, end);
    }
    BOutsideHI(p, codes, 0);
    BOutsideHI(p, codes, 544);
  }

  lemma StateIsNamed(l: Layout, s: StateInfo)
    requires HasStateInfo(s)
    ensures var fs := AddStateInfo(l, s).Fields();
        && TextField(663, 722, s.specialDataEntries) in fs && NumberField(723, 734, s.stateIncomeTaxWithheld) in fs
        && NumberField(735, 746, s.localIncomeTaxWithheld) in fs && TextField(747, 748, s.combinedFedStateCode) in fs
  {
    hide Layout.Fields, Layout.WellLaid, Layout.Reach, TextField, DigitsField, HasStateInfo;
  }

  /** The state block of a B record: all four fields when any of them is set, blank columns otherwise. */
  lemma StateInfoReadsBack(p: Payee, codes: string)
    requires FormFieldsClear(p.formSpecificFields)
    ensures var r, s := Paint(BLayout(p, codes)), p.stateInfo;
      if HasStateInfo(s) then
        && ShowsText(r, 663, 722, s.specialDataEntries)
        && ShowsNumber(r, 723, 734, s.stateIncomeTaxWithheld)
        && ShowsNumber(r, 735, 746, s.localIncomeTaxWithheld)
        && ShowsText(r, 747, 748, s.combinedFedStateCode)
      else Columns(r, 663, 748) == Repeat(' ', 86)
  {
    hide Paint, BNamed, AddFormFields, AddStateInfo, FormFieldsClear, PlainOnly, PlainCodes, AllColumns, Layout.Fields,
      Layout.WellLaid, Layout.Reach, TextField, DigitsField, HasStateInfo, Value, AllDigits, BlankFill, Columns;
    var s, l := p.stateInfo, BLayout(p, PlainOnly(codes));
    var before := AddFormFields(BNamed(p, PlainOnly(codes)), p.formSpecificFields, AllColumns());
    BIsWellLaid(p, PlainOnly(codes));
    if HasStateInfo(s) {
      StateIsNamed(before, s);
      TextReadsBack(l, 663, 722, s.specialDataEntries);
      NumberReadsBack(l, 723, 734, s.stateIncomeTaxWithheld);
      NumberReadsBack(l, 735, 746, s.localIncomeTaxWithheld);
      TextReadsBack(l, 747, 748, s.combinedFedStateCode);
      SameColumnsOutsideHI(p, codes, 663, 722);
      SameColumnsOutsideHI(p, codes, 723, 734);
      SameColumnsOutsideHI(p, codes, 735, 746);
      SameColumnsOutsideHI(p, codes, 747, 748);
    } else {
      NoStateInfo(before, s);
      forall f <- l.Fields() { before.ReachBounds(f); }
      BlankColumns(l, 663, 748);
      SameColumnsOutsideHI(p, codes, 663, 748);
    }
  }

  lemma NoStateInfo(l: Layout, s: StateInfo)
    requires !HasStateInfo(s)
    ensures AddStateInfo(l, s) == l
  {
  }

  // ----- exactly when an amount at code H or I survives

  /** What columns 247-270 hold: the amounts, under the foreign mark and the first name line. */
  lemma ColumnsOfHI(p: Payee, codes: string, k: nat)
    requires FormFieldsClear(p.formSpecificFields) && 246 <= k < 270
    ensures var amounts := Paint(AddAmounts(BHead(p), codes, p.paymentAmounts));
      Paint(BLayout(p, codes))[k] ==
        if k == 246 then (if p.foreignCountryInd then '1' else amounts[k])
        else if k - 247 < |p.firstNameLine| then p.firstNameLine[k - 247]
        else amounts[k]
  {
    hide Paint, AddAmounts, BHead, AddFormFields, FormFieldOf, AllColumns, Upper, DigitsField, FormFieldsClear,
      Layout.Fields, Layout.WellLaid, Layout.Reach;
    var l := AddAmounts(BHead(p), codes, p.paymentAmounts);
    l := WriteAt(l, MarkField(247, p.foreignCountryInd, '1'), k);
    l := WriteAt(l, TextField(248, 287, p.firstNameLine), k);
    l := WriteAt(l, TextField(288, 327, p.secondNameLine), k);
    l := WriteAt(l, TextField(367, 406, p.mailingAddress), k);
    l := WriteAt(l, TextField(407, 446, p.city), k);
    l := WriteAt(l, TextField(447, 448, Upper(p.state)), k);
    l := WriteAt(l, DigitsField(449, 457, p.zip), k);
    l := WriteAt(l, NumberField(500, 507, p.sequenceNum), k);
    l := WriteAt(l, MarkField(545, p.secondTINNotice, '2'), k);
    assert l == BNamed(p, codes);
    forall f | FormFieldOf(f, AllColumns(), p.formSpecificFields) ensures !f.Covers(k) {
      FormFieldsCompatible(f, f, AllColumns(), p.formSpecificFields);
    }
    UncoveredByForm(l, p.formSpecificFields, AllColumns(), k);
    StateIsOnTheRight(p.stateInfo, k);
    StateLeaves(AddFormFields(l, p.formSpecificFields, AllColumns()), p.stateInfo, k);
  }

  lemma StateIsOnTheRight(s: StateInfo, k: nat)
    requires k < 662
    ensures !StateCovers(s, k)
  {
  }

  /** The 12 columns of an amount show it. */
  ghost predicate AmountSurvives(p: Payee, codes: string, code: char)
    requires CodeIndex(code) >= 0
  {
    Columns(Paint(BLayout(p, codes)), AmountStart(code), AmountStart(code) + 11) ==
      AmountField(code, p.paymentAmounts).text
  }

  lemma AmountColumn(p: Payee, codes: string, code: char, i: nat)
    requires CodeIndex(code) >= 0 && code in codes && i < 12
    ensures var text := AmountField(code, p.paymentAmounts).text;
      |text| == 12 && AllDigits(text)
      && Paint(AddAmounts(BHead(p), codes, p.paymentAmounts))[AmountStart(code) - 1 + i] == text[i]
  {
    hide Paint, AddAmounts, BHead, Layout.Fields, Layout.WellLaid, Layout.Reach;
    AmountsAreWellLaid(BHead(p), codes, p.paymentAmounts);
    AmountsAdded(BHead(p), codes, p.paymentAmounts);
    var f := AmountField(code, p.paymentAmounts);
    assert AmountOf(f, codes, p.paymentAmounts);
    PrintedNumberReadsBack(Get(p.paymentAmounts, code), 12);
    CoveredColumn(AddAmounts(BHead(p), codes, p.paymentAmounts), f, AmountStart(code) - 1 + i);
  }

  /** Code H is overwritten from its first column: it survives only if the mark and the name happen to agree with it. */
  lemma AmountHSurvives(p: Payee, codes: string)
    requires FormFieldsClear(p.formSpecificFields) && 'H' in codes
    ensures var text, name := AmountField('H', p.paymentAmounts).text, p.firstNameLine;
      |text| == 12 && (AmountSurvives(p, codes, 'H') <==>
        && (p.foreignCountryInd ==> text[0] == '1')
        && forall i :: 1 <= i < 12 && i - 1 < |name| ==> name[i - 1] == text[i])
  {
    hide Paint, BLayout, AddAmounts, BHead, FormFieldsClear, AmountField, AllDigits;
    var text, name, r := AmountField('H', p.paymentAmounts).text, p.firstNameLine, Paint(BLayout(p, codes));
    forall i | 0 <= i < 12
      ensures |text| == 12
      ensures Columns(r, 247, 258)[i] ==
        if i == 0 then (if p.foreignCountryInd then '1' else text[0])
        else if i - 1 < |name| then name[i - 1] else text[i]
    {
      AmountColumn(p, codes, 'H', i);
      ColumnsOfHI(p, codes, 246 + i);
    }
    AmountColumn(p, codes, 'H', 0);
    SameText(Columns(r, 247, 258), text);
  }

  /** Code I is overwritten by the name line from the name's twelfth character on. */
  lemma AmountISurvives(p: Payee, codes: string)
    requires FormFieldsClear(p.formSpecificFields) && 'I' in codes
    ensures var text, name := AmountField('I', p.paymentAmounts).text, p.firstNameLine;
      |text| == 12 && (AmountSurvives(p, codes, 'I') <==>
        forall i :: 0 <= i < 12 && i + 11 < |name| ==> name[i + 11] == text[i])
  {
    hide Paint, BLayout, AddAmounts, BHead, FormFieldsClear, AmountField, AllDigits;
    var text, name, r := AmountField('I', p.paymentAmounts).text, p.firstNameLine, Paint(BLayout(p, codes));
    forall i | 0 <= i < 12
      ensures |text| == 12
      ensures Columns(r, 259, 270)[i] == if i + 11 < |name| then name[i + 11] else text[i]
    {
      AmountColumn(p, codes, 'I', i);
      ColumnsOfHI(p, codes, 258 + i);
    }
    AmountColumn(p, codes, 'I', 0);
    SameText(Columns(r, 259, 270), text);
  }

  lemma SameText(s: string, t: string)
    requires |s| == |t|
    ensures s == t <==> forall i :: 0 <= i < |s| ==> s[i] == t[i]
  {
  }

  /** For a payee whose name has no digits: code H survives exactly when the name line is empty and the
      foreign mark is off or happens to be the leading digit; code I exactly when the name has at most 11 characters. */
  lemma NamedPayeeLosesHI(p: Payee, codes: string)
    requires FormFieldsClear(p.formSpecificFields)
    requires forall i :: 0 <= i < |p.firstNameLine| ==> !IsDigit(p.firstNameLine[i])
    ensures 'H' in codes ==> |AmountField('H', p.paymentAmounts).text| == 12 && (AmountSurvives(p, codes, 'H') <==>
      p.firstNameLine == "" && (p.foreignCountryInd ==> AmountField('H', p.paymentAmounts).text[0] == '1'))
    ensures 'I' in codes ==> (AmountSurvives(p, codes, 'I') <==> |p.firstNameLine| <= 11)
  {
    hide AmountField, AmountSurvives, FormFieldsClear;
    var name := p.firstNameLine;
    if 'H' in codes {
      AmountHSurvives(p, codes);
      AmountColumn(p, codes, 'H', 1);
      if name != "" { assert !IsDigit(name[0]); }
    }
    if 'I' in codes {
      AmountISurvives(p, codes);
      AmountColumn(p, codes, 'I', 0);
      if |name| > 11 { assert !IsDigit(name[0 + 11]); }
    }
  }

  /** A payee named Ann with one dollar at code H: its columns do not show the amount. */
  lemma NamedPayeeExample()
    ensures !AmountSurvives(NoPayee().(paymentAmounts := map['H' := 100], firstNameLine := "Ann"), "H", 'H')
  {
    hide AmountSurvives;
    NamedPayeeLosesHI(NoPayee().(paymentAmounts := map['H' := 100], firstNameLine := "Ann"), "H");
  }

  // ----- exactly when the foreign mark and the first name line survive

  /** Digits of code H show through in what an unset mark or a name of up to ten characters leaves free of columns
      247-258, those of code I in what a name of up to 22 characters leaves free of columns 259-270. */
  predicate NameIsClear(p: Payee, codes: string) {
    && ('H' in codes ==> p.foreignCountryInd && |p.firstNameLine| >= 11)
    && ('I' in codes ==> |p.firstNameLine| >= 23)
  }

  function CodeUnderName(k: nat): char {
    if k < 258 then 'H' else 'I'
  }

  /** Before the name is written, columns 247-270 hold a digit where H or I is listed and a blank elsewhere. */
  lemma AmountsUnderName(p: Payee, codes: string, k: nat)
    requires 246 <= k < 270
    ensures var c := Paint(AddAmounts(BHead(p), codes, p.paymentAmounts))[k];
      if CodeUnderName(k) in codes then IsDigit(c) else c == ' '
  {
    hide Paint, AddAmounts, BHead, AmountField, AmountOf, Layout.Fields, Layout.Reach;
    var code, l := CodeUnderName(k), AddAmounts(BHead(p), codes, p.paymentAmounts);
    if code in codes {
      AmountColumn(p, codes, code, k - (AmountStart(code) - 1));
    } else {
      AmountsAdded(BHead(p), codes, p.paymentAmounts);
      forall f <- BHead(p).Fields() ensures !f.Covers(k) { BHead(p).ReachBounds(f); }
      forall f | AmountOf(f, codes, p.paymentAmounts) ensures !f.Covers(k) {
        AmountElsewhere(f, codes, p.paymentAmounts, code);
        AmountsCompatible(f, f, codes, p.paymentAmounts);
      }
      UncoveredColumn(l, k);
    }
  }

  /** A column of the name line shows the name, unless it lies past the name and over a listed code H or I. */
  lemma NameColumn(p: Payee, codes: string, i: nat)
    requires FormFieldsClear(p.formSpecificFields) && i < 40
    ensures Paint(BLayout(p, codes))[247 + i] == BlankFill(p.firstNameLine, 40)[i] <==>
            (i < 23 && CodeUnderName(247 + i) in codes ==> i < |p.firstNameLine|)
  {
    hide Paint, BLayout, AddAmounts, BHead, FormFieldsClear, PlainOnly, CodeUnderName;
    if i < 23 {
      ColumnsOfHI(p, codes, 247 + i);
      AmountsUnderName(p, codes, 247 + i);
    } else {
      BOutsideHI(p, codes, 247 + i);
      PlainPayeeReadsBack(p, PlainOnly(codes));
      assert Paint(BLayout(p, PlainOnly(codes)))[247 + i] == Columns(Paint(BLayout(p, PlainOnly(codes))), 248, 287)[i];
    }
  }

  /** The foreign mark and the first name line read back exactly when no digit of a listed code H or I shows through. */
  lemma NameSurvivesIff(p: Payee, codes: string)
    requires FormFieldsClear(p.formSpecificFields)
    ensures ShowsName(Paint(BLayout(p, codes)), p) <==> NameIsClear(p, codes)
  {
    hide Paint, BLayout, AddAmounts, BHead, FormFieldsClear, BlankFill;
    var r, name := Paint(BLayout(p, codes)), p.firstNameLine;
    ColumnsOfHI(p, codes, 246);
    AmountsUnderName(p, codes, 246);
    SameText(Columns(r, 248, 287), BlankFill(name, 40));
    forall i | 0 <= i < 40
      ensures Columns(r, 248, 287)[i] == BlankFill(name, 40)[i] <==>
              (i < 23 && CodeUnderName(247 + i) in codes ==> i < |name|)
    {
      NameColumn(p, codes, i);
    }
    assert CodeUnderName(247 + 10) == 'H' && CodeUnderName(247 + 22) == 'I';
    if ShowsText(r, 248, 287, name) {
      assert Columns(r, 248, 287)[10] == BlankFill(name, 40)[10];
      assert Columns(r, 248, 287)[22] == BlankFill(name, 40)[22];
    }
  }

  lemma PlainNameIsClear(p: Payee, codes: string)
    requires PlainCodes(codes)
    ensures NameIsClear(p, codes)
  {
    assert CodeIndex('H') >= 0 && !IsPlainCode('H') && CodeIndex('I') >= 0 && !IsPlainCode('I');
  }

  /** A payee named Ann, with code H listed: a digit stands in her name line, whatever her amounts are. */
  lemma NameLostExample(amounts: Amounts)
    ensures !ShowsName(Paint(BLayout(NoPayee().(paymentAmounts := amounts, firstNameLine := "Ann"), "H")),
                       NoPayee().(paymentAmounts := amounts, firstNameLine := "Ann"))
  {
    hide ShowsName, Paint, BLayout;
    NameSurvivesIff(NoPayee().(paymentAmounts := amounts, firstNameLine := "Ann"), "H");
  }

  /** Every named field of a B record reads back under any codes; the foreign mark and the first name line do exactly
      when no digit of a listed code H or I shows through. */
  lemma PayeeReadsBack(p: Payee, codes: string)
    requires FormFieldsClear(p.formSpecificFields)
    ensures var r := Paint(BLayout(p, codes));
      && ShowsPayee(r, p)
      && (ShowsName(r, p) <==> NameIsClear(p, codes))
      && forall code :: IsPlainCode(code) ==> ShowsAmount(r, code, codes, p.paymentAmounts)
  {
    hide Paint, BLayout, FormFieldsClear, PlainOnly, ShowsAmount, ShowsName, NameIsClear, Upper, AlnumOnly;
    PlainPayeeReadsBack(p, PlainOnly(codes));
    SameOutsideHI(p, Paint(BLayout(p, codes)), Paint(BLayout(p, PlainOnly(codes))), codes);
    NameSurvivesIff(p, codes);
    forall code | IsPlainCode(code) { AmountReadsBack(p, codes, code); }
  }
}
