/** The six FIRE record types, their renderers, and what a reader finds in each rendered record. */
module FireRecords {
  import opened GoBasics
  import opened Layouts
  import opened RecordBuffer

  datatype FireError = NilFile | UnsupportedFormCode

  type Amounts = map<char, int64>

  datatype Transmitter = Transmitter(
    paymentYear: int, priorYear: bool, tin: string, tcc: string, testFileInd: bool, foreignEntity: bool,
    transmitterName: string, transmitterNameCont: string, companyName: string, companyNameCont: string,
    companyMailingAddress: string, companyCity: string, companyState: string, companyZip: string,
    totalPayees: int, contactName: string, contactPhone: string, contactEmail: string, sequenceNum: int,
    vendorIndicator: string, vendorName: string, vendorMailingAddress: string, vendorCity: string,
    vendorState: string, vendorZip: string, vendorContactName: string, vendorContactPhone: string,
    vendorForeignEntityInd: bool)

  datatype Payer = Payer(
    paymentYear: int, cfsfInd: bool, tin: string, nameControl: string, lastFilingInd: bool,
    typeOfReturn: string, amountCodes: string, name: string, nameCont: string, shippingAddress: string,
    city: string, state: string, zip: string, phone: string, sequenceNum: int)

  datatype StateInfo = StateInfo(
    specialDataEntries: string, stateIncomeTaxWithheld: int64, localIncomeTaxWithheld: int64,
    combinedFedStateCode: string)

  datatype Payee = Payee(
    paymentYear: int, correctedReturnInd: string, nameControl: string, typeOfTIN: string, tin: string,
    payerAccountNum: string, payerOfficeCode: string, paymentAmounts: Amounts, foreignCountryInd: bool,
    firstNameLine: string, secondNameLine: string, mailingAddress: string, city: string, state: string,
    zip: string, sequenceNum: int, secondTINNotice: bool, formSpecificFields: map<int, string>,
    stateInfo: StateInfo)

  /** A nil totals map is None; Marshal fills only that one in. */
  datatype EndOfPayer = EndOfPayer(numPayees: int, amountTotals: Option<Amounts>, sequenceNum: int)

  datatype StateTotals = StateTotals(
    numPayees: int, amountTotals: Amounts, stateIncomeTaxWithheld: int64, localIncomeTaxWithheld: int64,
    combinedFedStateCode: string, sequenceNum: int)

  datatype EndOfFile = EndOfFile(numPayers: int, numPayees: int, sequenceNum: int)

  // ----- Go's zero records

  function NoTransmitter(): Transmitter {
    Transmitter(0, false, "", "", false, false, "", "", "", "", "", "", "", "", 0, "", "", "", 0,
                "", "", "", "", "", "", "", "", false)
  }

  function NoPayer(): Payer {
    Payer(0, false, "", "", false, "", "", "", "", "", "", "", "", "", 0)
  }

  function NoPayee(): Payee {
    Payee(0, "", "", "", "", "", "", map[], false, "", "", "", "", "", "", 0, false, map[], StateInfo("", 0, 0, ""))
  }

  // ----- amount codes

  const CODES: string := "123456789ABCDEFGHI"

  function CodeIndex(code: char): (i: int)
    ensures -1 <= i < 18
  {
    if '1' <= code <= '9' then code as int - '1' as int
    else if 'A' <= code <= 'I' then 9 + code as int - 'A' as int
    else -1
  }

  /** First column of a code's 12-column amount on a B record. */
  function AmountStart(code: char): int { 55 + CodeIndex(code) * 12 }

  /** First column of a code's 18-column total on a C or K record. */
  function TotalStart(code: char): int { 16 + CodeIndex(code) * 18 }

  /** Codes whose B-record columns no later field of the record overwrites. */
  predicate IsPlainCode(code: char) {
    '1' <= code <= '9' || 'A' <= code <= 'G'
  }

  /** The codes by position: the k-th of the eighteen has index k, and no other character has one. */
  lemma CodesInOrder(code: char)
    ensures CodeIndex(code) >= 0 <==> code in "123456789ABCDEFGHI"
    ensures forall k :: 0 <= k < 18 && code == "123456789ABCDEFGHI"[k] ==> CodeIndex(code) == k
  {
    var codes := "123456789ABCDEFGHI";
    if CodeIndex(code) >= 0 {
      assert codes[CodeIndex(code)] == code;
    }
  }

  method AmountColRange(code: char) returns (start: int, end: int, ok: bool)
    ensures ok == (CodeIndex(code) >= 0)
    ensures ok ==> start == AmountStart(code) && end == start + 11
    ensures ok <==> code in "123456789ABCDEFGHI"
    ensures forall k :: 0 <= k < 18 && code == "123456789ABCDEFGHI"[k] ==> start == 55 + 12 * k && end == 66 + 12 * k
  {
    CodesInOrder(code);
    var index;
    if '1' <= code <= '9' {
      index := code as int - '1' as int;
    } else if 'A' <= code <= 'I' {
      index := 9 + (code as int - 'A' as int);
    } else {
      return 0, 0, false;
    }
    start := 55 + index * 12;
    return start, start + 11, true;
  }

  method AmountTotalsRange(code: char, baseCol: int) returns (start: int, end: int, ok: bool)
    ensures ok == (CodeIndex(code) >= 0)
    ensures ok ==> start == baseCol + CodeIndex(code) * 18 && end == start + 17
    ensures ok <==> code in "123456789ABCDEFGHI"
    ensures forall k :: 0 <= k < 18 && code == "123456789ABCDEFGHI"[k] ==>
      start == baseCol + 18 * k && end == baseCol + 18 * k + 17
  {
    CodesInOrder(code);
    var index;
    if '1' <= code <= '9' {
      index := code as int - '1' as int;
    } else if 'A' <= code <= 'I' {
      index := 9 + (code as int - 'A' as int);
    } else {
      return 0, 0, false;
    }
    start := baseCol + index * 18;
    return start, start + 17, true;
  }

  /** A Go map read: an absent key reads as zero. */
  function Get(m: Amounts, code: char): int64 {
    if code in m then m[code] else 0
  }

  // ----- the fields of each record, in the order they are written

  /** Columns 1-303: the file's identity and the transmitting company. */
  function TCompany(t: Transmitter): (l: Layout)
    ensures l.WellLaid() && l.Reach() == 303
  {
    Start
      .Char(1, 'T')
      .Number(2, 5, t.paymentYear)
      .Mark(6, t.priorYear, 'P')
      .Digits(7, 15, t.tin)
      .Text(16, 20, BlankFill(t.tcc, 5))
      .Mark(28, t.testFileInd, 'T')
      .Mark(29, t.foreignEntity, '1')
      .Text(30, 69, t.transmitterName)
      .Text(70, 109, t.transmitterNameCont)
      .Text(110, 149, t.companyName)
      .Text(150, 189, t.companyNameCont)
      .Text(190, 229, t.companyMailingAddress)
      .Text(230, 269, t.companyCity)
      .Text(270, 271, Upper(t.companyState))
      .Digits(272, 280, t.companyZip)
      .Number(296, 303, t.totalPayees)
  }

  function TLayout(t: Transmitter): (l: Layout)
    ensures l.WellLaid()
  {
    TCompany(t)
      .Text(304, 343, t.contactName)
      .Text(344, 358, t.contactPhone)
      .Text(359, 408, t.contactEmail)
      .Number(500, 507, t.sequenceNum)
      .Text(519, 519, t.vendorIndicator)
      .Text(520, 559, t.vendorName)
      .Text(560, 599, t.vendorMailingAddress)
      .Text(600, 639, t.vendorCity)
      .Text(640, 641, Upper(t.vendorState))
      .Digits(642, 650, t.vendorZip)
      .Text(651, 690, t.vendorContactName)
      .Text(691, 705, t.vendorContactPhone)
      .Mark(740, t.vendorForeignEntityInd, '1')
  }

  function ALayout(p: Payer): (l: Layout)
    ensures l.WellLaid()
  {
    Start
      .Char(1, 'A')
      .Number(2, 5, p.paymentYear)
      .Mark(6, p.cfsfInd, '1')
      .Digits(12, 20, p.tin)
      .Text(21, 24, Upper(AlnumOnly(p.nameControl)))
      .Mark(25, p.lastFilingInd, '1')
      .Text(26, 27, p.typeOfReturn)
      .Text(28, 45, p.amountCodes)
      .Text(52, 91, p.name)
      .Text(92, 131, p.nameCont)
      .Text(132, 171, p.shippingAddress)
      .Text(172, 211, p.city)
      .Text(212, 213, Upper(p.state))
      .Digits(214, 222, p.zip)
      .Text(223, 237, p.phone)
      .Number(500, 507, p.sequenceNum)
  }

  /** The B record up to the amounts. */
  function BHead(p: Payee): (l: Layout)
    ensures l.WellLaid() && l.Reach() == 44
  {
    Start
      .Char(1, 'B')
      .Number(2, 5, p.paymentYear)
      .Text(6, 6, p.correctedReturnInd)
      .Text(7, 10, Upper(AlnumOnly(p.nameControl)))
      .Text(11, 11, p.typeOfTIN)
      .Digits(12, 20, p.tin)
      .Text(21, 40, p.payerAccountNum)
      .Text(41, 44, p.payerOfficeCode)
  }

  function AmountField(code: char, amounts: Amounts): Field {
    NumberField(AmountStart(code), AmountStart(code) + 11, Get(amounts, code))
  }

  /** One field per recognised code of the payer's code string, in its order. */
  function AddAmounts(l: Layout, codes: string, amounts: Amounts): Layout {
    if codes == "" then l
    else
      var rest, c := AddAmounts(l, codes[..|codes| - 1], amounts), codes[|codes| - 1];
      if CodeIndex(c) >= 0 then Then(rest, AmountField(c, amounts)) else rest
  }

  /** The B record from the foreign-country mark to the second-notice mark. */
  function AddPayee(l: Layout, p: Payee): (r: Layout)
    ensures l.WellLaid() && l.Reach() <= 246 ==> r.WellLaid() && r.Reach() == 545
  {
    l .Mark(247, p.foreignCountryInd, '1')
      .Text(248, 287, p.firstNameLine)
      .Text(288, 327, p.secondNameLine)
      .Text(367, 406, p.mailingAddress)
      .Text(407, 446, p.city)
      .Text(447, 448, Upper(p.state))
      .Digits(449, 457, p.zip)
      .Number(500, 507, p.sequenceNum)
      .Mark(545, p.secondTINNotice, '2')
  }

  /** The named fields of a B record, without the state block. */
  function BNamed(p: Payee, codes: string): Layout {
    AddPayee(AddAmounts(BHead(p), codes, p.paymentAmounts), p)
  }

  /** An order in which a walk of the map can yield its columns. */
  ghost predicate IsWalk(order: seq<int>, m: map<int, string>) {
    (forall c :: c in order <==> c in m) && forall i, j :: 0 <= i < j < |order| ==> order[i] != order[j]
  }

  /** Is this form-specific entry written at all? An empty value or one that runs past the record is dropped. */
  predicate IsWritten(col: int, val: string) {
    1 <= col && val != "" && col + |val| - 1 <= RECORD_LEN
  }

  function FormField(col: int, val: string): Field {
    TextField(col, col + |val| - 1, val)
  }

  /** The form-specific fields that are written, in the given column order. */
  function AddFormFields(l: Layout, m: map<int, string>, order: seq<int>): Layout {
    if order == [] then l
    else
      var rest, col := AddFormFields(l, m, order[..|order| - 1]), order[|order| - 1];
      if col in m && IsWritten(col, m[col]) then Then(rest, FormField(col, m[col])) else rest
  }

  /** The columns 1 to 750, left to right. */
  function AllColumns(): seq<int> {
    seq(RECORD_LEN, i => i + 1)
  }

  predicate HasStateInfo(s: StateInfo) {
    s.specialDataEntries != "" || s.combinedFedStateCode != ""
    || s.stateIncomeTaxWithheld != 0 || s.localIncomeTaxWithheld != 0
  }

  function AddStateInfo(l: Layout, s: StateInfo): (r: Layout)
    ensures l.WellLaid() && l.Reach() <= 662 ==> r.WellLaid()
  {
    if HasStateInfo(s) then
      l .Text(663, 722, s.specialDataEntries)
        .Number(723, 734, s.stateIncomeTaxWithheld)
        .Number(735, 746, s.localIncomeTaxWithheld)
        .Text(747, 748, s.combinedFedStateCode)
    else l
  }

  function BLayoutInOrder(p: Payee, codes: string, order: seq<int>): Layout {
    AddStateInfo(AddFormFields(BNamed(p, codes), p.formSpecificFields, order), p.stateInfo)
  }

  /** The B record, with the form-specific fields taken left to right. */
  function BLayout(p: Payee, codes: string): Layout {
    BLayoutInOrder(p, codes, AllColumns())
  }

  function TotalField(code: char, totals: Amounts): Field {
    NumberField(TotalStart(code), TotalStart(code) + 17, Get(totals, code))
  }

  /** One field per recognised code that has a total, in the given code order. */
  function AddTotals(l: Layout, order: string, totals: Amounts): Layout {
    if order == "" then l
    else
      var rest, c := AddTotals(l, order[..|order| - 1], totals), order[|order| - 1];
      if CodeIndex(c) >= 0 && c in totals then Then(rest, TotalField(c, totals)) else rest
  }

  function TotalsOf(c: EndOfPayer): Amounts {
    if c.amountTotals.Some? then c.amountTotals.value else map[]
  }

  /** The start of a C or K record: its type and its payee count. */
  function CountedHead(kind: char, numPayees: int): (l: Layout)
    ensures l.WellLaid() && l.Reach() == 9
    ensures l.Fields() == {CharField(1, kind), NumberField(2, 9, numPayees)}
  {
    Start.Char(1, kind).Number(2, 9, numPayees)
  }

  function CLayout(c: EndOfPayer): Layout {
    AddTotals(CountedHead('C', c.numPayees), CODES, TotalsOf(c))
      .Number(500, 507, c.sequenceNum)
  }

  function KLayout(k: StateTotals): Layout {
    AddTotals(CountedHead('K', k.numPayees), CODES, k.amountTotals)
      .Number(500, 507, k.sequenceNum)
      .Number(707, 724, k.stateIncomeTaxWithheld)
      .Number(725, 742, k.localIncomeTaxWithheld)
      .Text(747, 748, k.combinedFedStateCode)
  }

  function FLayout(f: EndOfFile): (l: Layout)
    ensures l.WellLaid()
  {
    Start
      .Char(1, 'F')
      .Number(2, 9, f.numPayers)
      .Number(22, 29, f.numPayees)
      .Number(500, 507, f.sequenceNum)
  }

  /** A record on the wire: its columns, then CR-LF. */
  function Render(l: Layout): (out: string)
    ensures |out| == RECORD_LEN + 2
  {
    Paint(l) + "\r\n"
  }
}
