/** From a 1099 form to the FIRE wire: dollars to cents, TINs, the builders, and what the records then show. */
module TaxForms {
  import opened GoBasics
  import opened Decimal
  import opened Layouts
  import opened RecordBuffer
  import opened FireRecords
  import opened FireLayouts
  import opened FireReading
  import opened FirePayees
  import opened FireFiles
  import opened FireWire
  import opened FireTotals
  import opened FireColumns

  // ----- dollars to cents

  /** Cents, rounded half up in magnitude. */
  function DollarsToCents(v: real): int64 {
    if v < 0.0 then Wrap64(0 - ToInt64(-v * 100.0 + 0.5) as int) else ToInt64(v * 100.0 + 0.5)
  }

  /** Cents that fit an int64 with room to spare. */
  predicate CentsFit(v: real) {
    -90_000_000_000_000_000.0 <= v <= 90_000_000_000_000_000.0
  }

  /** Within half a cent of the dollar value, a tie going away from zero; and exactly the opposite for the opposite
        value. */
  lemma CentsAreNearest(v: real)
    requires CentsFit(v)
    ensures var c := DollarsToCents(v) as real;
      && -0.5 <= c - v * 100.0 <= 0.5
      && (v >= 0.0 ==> c - v * 100.0 > -0.5)
      && (v < 0.0 ==> c - v * 100.0 < 0.5)
    ensures DollarsToCents(-v) == -DollarsToCents(v)
  {
  }

  lemma WholeCentsAreExact(cents: int)
    requires -9_000_000_000_000_000_000 <= cents <= 9_000_000_000_000_000_000
    ensures DollarsToCents(cents as real / 100.0) == cents
  {
    assert cents as real / 100.0 * 100.0 == cents as real;
  }

  // ----- TINs

  /** Keeps the digits of a TIN. */
  method StripTIN(s: string) returns (out: string)
    ensures out == DigitsOnly(s)
  {
    out := "";
    for i := 0 to |s|
      invariant out == DigitsOnly(s[..i])
    {
      assert s[..i + 1][..i] == s[..i];
      var c := s[i];
      if c >= '0' && c <= '9' {
        out := out + [c];
      } else {
        assert out + "" == out;
      }
    }
    assert s[..|s|] == s;
  }

  function PickedEIN(alts: seq<string>): string {
    if alts == [] then "" else if DigitsOnly(alts[0]) != "" then DigitsOnly(alts[0]) else PickedEIN(alts[1..])
  }

  /** The first alternative with any digit in it, digits only. */
  method PickEIN(alts: seq<string>) returns (ein: string)
    ensures ein == PickedEIN(alts)
  {
    for i := 0 to |alts|
      invariant PickedEIN(alts) == PickedEIN(alts[i..])
    {
      var s := StripTIN(alts[i]);
      if s != "" {
        return s;
      }
    }
    return "";
  }

  /** The picked EIN is an alternative's digits, and empty only if no alternative has a digit. */
  lemma {:induction false} PickedEINIsFirst(alts: seq<string>)
    ensures PickedEIN(alts) == "" <==> forall a <- alts :: DigitsOnly(a) == ""
    ensures PickedEIN(alts) != "" ==>
      exists i :: 0 <= i < |alts| && PickedEIN(alts) == DigitsOnly(alts[i])
                  && forall j :: 0 <= j < i ==> DigitsOnly(alts[j]) == ""
  {
    assert alts != [] ==> alts[0] in alts;
    if alts != [] && DigitsOnly(alts[0]) == "" {
      PickedEINIsFirst(alts[1..]);
      assert alts == [alts[0]] + alts[1..];
      if PickedEIN(alts) != "" {
        var i :| 0 <= i < |alts[1..]| && PickedEIN(alts) == DigitsOnly(alts[1..][i])
                 && forall j :: 0 <= j < i ==> DigitsOnly(alts[1..][j]) == "";
        forall j | 0 <= j < i + 1 ensures DigitsOnly(alts[j]) == "" {
          if j > 0 { assert alts[j] == alts[1..][j - 1]; }
        }
        assert alts[i + 1] == alts[1..][i];
      }
    }
  }

  // ----- forms and builders

  datatype DividendForm = DividendForm(
    taxYear: int, payerName: string, payerEIN: string, recipientName: string, recipientTIN: string,
    recipientAddress: string, ordinary: real, qualified: real, withheld: real)

  datatype BrokerForm = BrokerForm(
    taxYear: int, payerName: string, payerEIN: string, recipientName: string, recipientTIN: string, proceeds: real,
    costBasis: real, withheld: real)

  /** The transmitter lookup: not configured, failed, or found. */
  datatype Lookup = NoRegistry | Failed(issuer: string, cause: string) | Found(tcc: string, ein: string)

  datatype Options = Options(transmitter: Lookup, test: bool)

  function CodeOf(l: Lookup): string {
    if l.Found? then l.tcc else ""
  }

  function EinOf(l: Lookup): string {
    if l.Found? then l.ein else ""
  }

  /** A file with one payer and one payee, counters and totals zero. */
  function SinglePayeeFile(t: Transmitter, p: Payer, b: Payee): FileData {
    FileData(t, [PayerGroup(p, [b], EndOfPayer(0, None, 0))], [], EndOfFile(0, 0, 0))
  }

  function DividendAmounts(form: DividendForm): Amounts {
    map['1' := DollarsToCents(form.ordinary), '2' := DollarsToCents(form.qualified),
        '4' := DollarsToCents(form.withheld)]
  }

  function BrokerAmounts(form: BrokerForm): Amounts {
    map['2' := DollarsToCents(form.proceeds), '3' := DollarsToCents(form.costBasis),
        'A' := DollarsToCents(form.withheld)]
  }

  /** buildFIREFileFromDIV */
  function DividendFile(form: DividendForm, opts: Options): Result<FileData, string> {
    if opts.transmitter.Failed? then
      Err("tax: resolve TCC for issuer " + opts.transmitter.issuer + ": " + opts.transmitter.cause)
    else
      Ok(SinglePayeeFile(
           NoTransmitter().(paymentYear := form.taxYear, tin := PickedEIN([EinOf(opts.transmitter), form.payerEIN]),
           tcc := CodeOf(opts.transmitter), testFileInd := opts.test, transmitterName := form.payerName,
           companyName := form.payerName,
           companyMailingAddress := form.recipientAddress, contactName := form.payerName),
           NoPayer().(paymentYear := form.taxYear, tin := form.payerEIN, typeOfReturn := "1 ", amountCodes := "124",
           name := form.payerName),
           NoPayee().(paymentYear := form.taxYear, typeOfTIN := "2", tin := DigitsOnly(form.recipientTIN),
           paymentAmounts := DividendAmounts(form), firstNameLine := form.recipientName)))
  }

  /** buildFIREFileFromB */
  function BrokerFile(form: BrokerForm, opts: Options): Result<FileData, string> {
    if opts.transmitter.Failed? then
      Err("tax: resolve TCC for issuer " + opts.transmitter.issuer + ": " + opts.transmitter.cause)
    else
      Ok(SinglePayeeFile(
           NoTransmitter().(paymentYear := form.taxYear, tin := PickedEIN([EinOf(opts.transmitter), form.payerEIN]),
           tcc := CodeOf(opts.transmitter), testFileInd := opts.test, transmitterName := form.payerName,
           companyName := form.payerName,
           contactName := form.payerName),
           NoPayer().(paymentYear := form.taxYear, tin := form.payerEIN, typeOfReturn := "B ", amountCodes := "23A",
           name := form.payerName),
           NoPayee().(paymentYear := form.taxYear, typeOfTIN := "2", tin := DigitsOnly(form.recipientTIN),
           paymentAmounts := BrokerAmounts(form), firstNameLine := form.recipientName)))
  }

  // ----- what reaches the wire

  /** The amount codes declared for the payer are exactly the codes the payee has amounts for, all of them plain. */
  ghost predicate CodesCover(codes: string, amounts: Amounts) {
    (forall c :: c in codes <==> c in amounts) && forall c <- codes :: IsPlainCode(c)
  }

  lemma BuildersCoverTheirAmounts(div: DividendForm, b: BrokerForm)
    ensures CodesCover("124", DividendAmounts(div))
    ensures CodesCover("23A", BrokerAmounts(b))
  {
    forall c ensures c in "124" <==> c in DividendAmounts(div) { assert "124" == ['1', '2', '4']; }
    forall c ensures c in "23A" <==> c in BrokerAmounts(b) { assert "23A" == ['2', '3', 'A']; }
  }

  /** The file's B record is its third record and its C record the fourth: cents in the columns from b and from c on. */
  ghost predicate ShowsBox(wire: string, b: nat, c: nat, cents: int) {
    && 1 <= b <= 739 && 1 <= c <= 733
    && Value(Columns(RecordAt(wire, 2), b, b + 11)) == cents
    && Value(Columns(RecordAt(wire, 3), c, c + 17)) == cents
  }

  /** A built file is accepted by Marshal, which returns its wire form. */
  lemma SinglePayeeFileMarshals(t: Transmitter, p: Payer, b: Payee)
    requires p.typeOfReturn != "" && b.formSpecificFields == map[]
    ensures var gs := SinglePayeeFile(t, p, b).payerGroups;
      (forall g <- gs :: HasFormCode(g)) && (forall g <- gs :: GroupAgrees(g))
    ensures GroupClear(SinglePayeeFile(t, p, b).payerGroups[0])
  {
  }

  lemma OnlyAmount(b: Payee, code: char)
    ensures AmountSum([b], code) == Get(b.paymentAmounts, code)
  {
    assert [b][..0] == [];
  }

  lemma FirstGroupStarts(f: FileData)
    ensures GroupStart(f, 0) == 1
  {
  }

  predicate IsKthCode(code: char, k: nat) {
    k < 18 && code == "123456789ABCDEFGHI"[k]
  }

  lemma BoxCodes()
    ensures IsKthCode('1', 0) && IsKthCode('2', 1) && IsKthCode('3', 2) && IsKthCode('4', 3) && IsKthCode('A', 9)
  {
  }

  lemma SingleAmount(b: Payee, code: char)
    requires 0 <= Get(b.paymentAmounts, code) < 1_000_000_000_000
    ensures forall p <- [b] :: 0 <= Get(p.paymentAmounts, code) < 1_000_000_000_000
  {
  }

  /** Each listed amount of a single payee reads back from its B record and, as the group total, from its C record: the
      k-th code in columns 55 + 12k on and 16 + 18k on. */
  lemma AmountOnWire(t: Transmitter, p: Payer, b: Payee, code: char, k: nat)
    requires p.typeOfReturn != "" && b.formSpecificFields == map[] && CodesCover(p.amountCodes, b.paymentAmounts)
    requires code in p.amountCodes && 0 <= Get(b.paymentAmounts, code) < 1_000_000_000_000
    requires IsKthCode(code, k)
    ensures ShowsBox(Wire(Fill(SinglePayeeFile(t, p, b))), 55 + 12 * k, 16 + 18 * k, Get(b.paymentAmounts, code))
  {
    hide Wire, Fill, Value, Columns, RecordAt, CodesCover, GroupClear, HasFormCode, GroupAgrees, AmountSum, CodeIndex,
      AmountStart, TotalStart, IsPlainCode, GroupStart, ShownSum, ShownTotal, Get;
    var d := SinglePayeeFile(t, p, b);
    CoveredIsPlain(p.amountCodes, b.paymentAmounts, code);
    StandsAt(code, k);
    SinglePayeeFileMarshals(t, p, b);
    FirstGroupStarts(d);
    SingleAmount(b, code);
    NonNegativeTotalsBalance(d, 0, code);
    OnlyAmount(b, code);
    ShownIs(Wire(Fill(d)), code);
  }

  lemma CoveredIsPlain(codes: string, amounts: Amounts, code: char)
    requires CodesCover(codes, amounts) && code in codes
    ensures IsPlainCode(code)
  {
  }

  lemma ShownIs(wire: string, code: char)
    requires IsPlainCode(code)
    ensures ShownTotal(wire, 3, code) == Value(Columns(RecordAt(wire, 3), TotalStart(code), TotalStart(code) + 17))
    ensures ShownSum(wire, 2, 1, code) == Value(Columns(RecordAt(wire, 2), AmountStart(code), AmountStart(code) + 11))
  {
    hide Value, Columns, RecordAt;
    assert ShownSum(wire, 2, 0, code) == 0;
  }

  /** A box amount the wire can show: not negative, and below 10^12 cents after rounding. */
  predicate BoxFits(v: real) {
    v >= 0.0 && v * 100.0 + 0.5 < 1_000_000_000_000.0
  }

  lemma BoxCents(v: real)
    requires BoxFits(v)
    ensures 0 <= DollarsToCents(v) < 1_000_000_000_000
    ensures v - 0.005 < DollarsToCents(v) as real / 100.0 <= v + 0.005
  {
  }

  /** A 1099-DIV's boxes reach the B and C records of its file, in cents: box 1a in columns 55 and 16 on, box 1b in 67
        and 34 on, box 4 in 91 and 70 on. */
  lemma DividendsReachTheWire(form: DividendForm, opts: Options)
    requires !opts.transmitter.Failed?
    requires BoxFits(form.ordinary) && BoxFits(form.qualified) && BoxFits(form.withheld)
    ensures DividendFile(form, opts).Ok?
    ensures var wire := Wire(Fill(DividendFile(form, opts).value));
      && ShowsBox(wire, 55, 16, DollarsToCents(form.ordinary))
      && ShowsBox(wire, 67, 34, DollarsToCents(form.qualified))
      && ShowsBox(wire, 91, 70, DollarsToCents(form.withheld))
  {
    hide Wire, Fill, ShowsBox, CodesCover, DollarsToCents, BoxFits, PickedEIN, DigitsOnly, IsKthCode;
    BoxCodes();
    BoxCents(form.ordinary);
    BoxCents(form.qualified);
    BoxCents(form.withheld);
    BuildersCoverTheirAmounts(form, BrokerForm(0, "", "", "", "", 0.0, 0.0, 0.0));
    var d := DividendFile(form, opts).value;
    var p, b := d.payerGroups[0].payer, d.payerGroups[0].payees[0];
    assert d == SinglePayeeFile(d.transmitter, p, b) && "124" == ['1', '2', '4'];
    AmountOnWire(d.transmitter, p, b, '1', 0);
    AmountOnWire(d.transmitter, p, b, '2', 1);
    AmountOnWire(d.transmitter, p, b, '4', 3);
  }

  /** A 1099-B's boxes reach the B and C records of its file, in cents: the proceeds in columns 67 and 34 on, the cost
      basis in 79 and 52 on, the withheld tax in 163 and 178 on. */
  lemma ProceedsReachTheWire(form: BrokerForm, opts: Options)
    requires !opts.transmitter.Failed?
    requires BoxFits(form.proceeds) && BoxFits(form.costBasis) && BoxFits(form.withheld)
    ensures BrokerFile(form, opts).Ok?
    ensures var wire := Wire(Fill(BrokerFile(form, opts).value));
      && ShowsBox(wire, 67, 34, DollarsToCents(form.proceeds))
      && ShowsBox(wire, 79, 52, DollarsToCents(form.costBasis))
      && ShowsBox(wire, 163, 178, DollarsToCents(form.withheld))
  {
    hide Wire, Fill, ShowsBox, CodesCover, DollarsToCents, BoxFits, PickedEIN, DigitsOnly, IsKthCode;
    BoxCodes();
    BoxCents(form.proceeds);
    BoxCents(form.costBasis);
    BoxCents(form.withheld);
    BuildersCoverTheirAmounts(DividendForm(0, "", "", "", "", "", 0.0, 0.0, 0.0), form);
    var d := BrokerFile(form, opts).value;
    var p, b := d.payerGroups[0].payer, d.payerGroups[0].payees[0];
    assert d == SinglePayeeFile(d.transmitter, p, b) && "23A" == ['2', '3', 'A'];
    AmountOnWire(d.transmitter, p, b, '2', 1);
    AmountOnWire(d.transmitter, p, b, '3', 2);
    AmountOnWire(d.transmitter, p, b, 'A', 9);
  }

  // ----- who the wire says the parties are

  /** The T record names the transmitter, the A record the payer and the form, the B record the recipient, and all three
      the tax year. */
  ghost predicate Identifies(wire: string, year: int, ein: string, tcc: string, test: bool, payer: string,
                             address: string, payerTIN: string, code: string, recipient: string, recipientTIN: string)
  {
    var t, a, b := RecordAt(wire, 0), RecordAt(wire, 1), RecordAt(wire, 2);
    && ShowsNumber(t, 2, 5, year) && ShowsNumber(a, 2, 5, year) && ShowsNumber(b, 2, 5, year)
    && ShowsText(t, 190, 229, address)
    && ShowsDigits(t, 7, 15, ein) && ShowsText(t, 16, 20, BlankFill(tcc, 5)) && ShowsMark(t, 28, test, 'T')
    && ShowsText(t, 30, 69, payer) && ShowsText(t, 110, 149, payer) && ShowsText(t, 304, 343, payer)
    && ShowsDigits(a, 12, 20, payerTIN) && ShowsText(a, 26, 27, code) && ShowsText(a, 52, 91, payer)
    && ShowsText(b, 11, 11, "2") && ShowsDigits(b, 12, 20, recipientTIN) && ShowsText(b, 248, 287, recipient)
  }

  lemma TransmitterIsFirst(f: FileData)
    ensures RecordAt(Wire(f), 0) == Paint(TLayout(f.transmitter))
  {
    hide TLayout, FLayout, Paint, Render, Wire, FileRecord, FileRecords, RecordCount, RecordsBefore, RecordAt,
      AllRecords;
    FilePositions(f);
    SlotRecord(f, 0, TLayout(f.transmitter));
  }

  lemma PayerIsSecond(f: FileData)
    requires f.payerGroups != []
    ensures RecordAt(Wire(f), 1) == Paint(ALayout(f.payerGroups[0].payer))
  {
    hide ALayout, Paint, Render, Wire, FileRecord, RecordCount, RecordAt, GroupStart, GroupRecords;
    FirstGroupStarts(f);
    GroupPosition(f, 0, 0);
    PayerComesFirst(f.payerGroups[0]);
    SlotRecord(f, 1, ALayout(f.payerGroups[0].payer));
  }

  lemma PayeeIsThird(f: FileData)
    requires f.payerGroups != [] && f.payerGroups[0].payees != []
    ensures RecordAt(Wire(f), 2) == Paint(BLayout(f.payerGroups[0].payees[0], f.payerGroups[0].payer.amountCodes))
  {
    hide BLayout, Paint, Wire, RecordAt, GroupStart;
    FirstGroupStarts(f);
    PayeeOnWire(f, 0, 0);
  }

  /** Filling numbers and dates the records; it changes no name, TIN, code or flag. */
  lemma FillKeepsParties(d: FileData, t: Transmitter, p: Payer, b: Payee)
    requires d == SinglePayeeFile(t, p, b)
    ensures |Fill(d).payerGroups| == 1 && |Fill(d).payerGroups[0].payees| == 1
    ensures var t', p', b' := Fill(d).transmitter, Fill(d).payerGroups[0].payer, Fill(d).payerGroups[0].payees[0];
      && t' == t.(sequenceNum := t'.sequenceNum, totalPayees := t'.totalPayees)
      && p' == p.(sequenceNum := p'.sequenceNum, paymentYear := p'.paymentYear)
      && b' == b.(sequenceNum := b'.sequenceNum, paymentYear := b'.paymentYear)
      && (t.paymentYear == p.paymentYear == b.paymentYear ==>
            p'.paymentYear == b'.paymentYear == t.paymentYear)
  {
    hide GroupTotals;
  }

  lemma PartiesOnWire(t: Transmitter, p: Payer, b: Payee)
    requires b.formSpecificFields == map[] && PlainCodes(p.amountCodes) && b.typeOfTIN == "2"
    requires t.transmitterName == t.companyName == t.contactName == p.name
    requires t.paymentYear == p.paymentYear == b.paymentYear
    ensures Identifies(Wire(Fill(SinglePayeeFile(t, p, b))), t.paymentYear, t.tin, t.tcc, t.testFileInd, p.name,
                       t.companyMailingAddress, p.tin, p.typeOfReturn, b.firstNameLine, b.tin)
  {
    var d := SinglePayeeFile(t, p, b);
    FillKeepsParties(d, t, p, b);
    TransmitterIsFirst(Fill(d));
    PayerIsSecond(Fill(d));
    PayeeIsThird(Fill(d));
    hide TLayout, ALayout, BLayout, Paint, Wire, Fill, RecordAt, ShowsNumber, ShowsText, ShowsDigits, ShowsMark,
      ShowsAmount, NameIsClear, Upper, AlnumOnly, BlankFill, PlainCodes;
    var f := Fill(d);
    NoFormFields();
    TransmitterReadsBack(f.transmitter);
    PayerReadsBack(f.payerGroups[0].payer);
    PayeeReadsBack(f.payerGroups[0].payees[0], f.payerGroups[0].payer.amountCodes);
    PlainNameIsClear(f.payerGroups[0].payees[0], f.payerGroups[0].payer.amountCodes);
  }

  lemma NoFormFields()
    ensures FormFieldsClear(map[])
  {
  }

  lemma BuilderCodesArePlain()
    ensures PlainCodes("124") && PlainCodes("23A")
  {
    assert "124" == ['1', '2', '4'] && "23A" == ['2', '3', 'A'];
  }

  /** A 1099-DIV's file names its payer, its recipient and the transmitter that was looked up. */
  lemma DividendPartiesReachTheWire(form: DividendForm, opts: Options)
    requires !opts.transmitter.Failed?
    ensures DividendFile(form, opts).Ok?
    ensures Identifies(Wire(Fill(DividendFile(form, opts).value)), form.taxYear,
                       PickedEIN([if opts.transmitter.Found? then opts.transmitter.ein else "", form.payerEIN]),
                       if opts.transmitter.Found? then opts.transmitter.tcc else "", opts.test, form.payerName,
                       form.recipientAddress, form.payerEIN, "1 ", form.recipientName, DigitsOnly(form.recipientTIN))
  {
    hide Wire, Fill, Identifies, PickedEIN, DigitsOnly, PlainCodes, DollarsToCents;
    BuilderCodesArePlain();
    var d := DividendFile(form, opts).value;
    PartiesOnWire(d.transmitter, d.payerGroups[0].payer, d.payerGroups[0].payees[0]);
  }

  /** A 1099-B's file names its payer, its recipient and the transmitter that was looked up. */
  lemma BrokerPartiesReachTheWire(form: BrokerForm, opts: Options)
    requires !opts.transmitter.Failed?
    ensures BrokerFile(form, opts).Ok?
    ensures Identifies(Wire(Fill(BrokerFile(form, opts).value)), form.taxYear,
                       PickedEIN([if opts.transmitter.Found? then opts.transmitter.ein else "", form.payerEIN]),
                       if opts.transmitter.Found? then opts.transmitter.tcc else "", opts.test, form.payerName, "",
                       form.payerEIN, "B ", form.recipientName, DigitsOnly(form.recipientTIN))
  {
    hide Wire, Fill, Identifies, PickedEIN, DigitsOnly, PlainCodes, DollarsToCents;
    BuilderCodesArePlain();
    var d := BrokerFile(form, opts).value;
    PartiesOnWire(d.transmitter, d.payerGroups[0].payer, d.payerGroups[0].payees[0]);
  }

  /** What a built file leaves out stays blank: in the A record everything but year, TIN, form, codes and name, in the B
      record everything but year, TIN, amounts and name line. */
  ghost predicate LeavesBlank(wire: string) {
    var a, b := RecordAt(wire, 1), RecordAt(wire, 2);
    && ShowsMark(a, 6, false, '1') && ShowsText(a, 21, 24, "") && ShowsMark(a, 25, false, '1')
    && ShowsText(a, 92, 131, "") && ShowsText(a, 132, 171, "") && ShowsText(a, 172, 211, "")
    && ShowsText(a, 212, 213, "") && ShowsText(a, 223, 237, "")
    && ShowsText(b, 6, 6, "") && ShowsText(b, 7, 10, "") && ShowsText(b, 21, 40, "") && ShowsText(b, 41, 44, "")
    && ShowsMark(b, 247, false, '1') && ShowsText(b, 288, 327, "") && ShowsText(b, 367, 406, "")
    && ShowsText(b, 407, 446, "") && ShowsText(b, 447, 448, "") && ShowsMark(b, 545, false, '2')
    && Columns(b, 663, 748) == Repeat(' ', 86)
  }

  lemma NothingIsKept()
    ensures Upper("") == "" && Upper(AlnumOnly("")) == ""
  {
  }

  lemma RestOnWire(t: Transmitter, p: Payer, b: Payee)
    requires PlainCodes(p.amountCodes)
    requires p == NoPayer().(paymentYear := p.paymentYear, tin := p.tin, typeOfReturn := p.typeOfReturn,
                             amountCodes := p.amountCodes, name := p.name)
    requires b == NoPayee().(paymentYear := b.paymentYear, typeOfTIN := b.typeOfTIN, tin := b.tin,
                             paymentAmounts := b.paymentAmounts, firstNameLine := b.firstNameLine)
    ensures LeavesBlank(Wire(Fill(SinglePayeeFile(t, p, b))))
  {
    var d := SinglePayeeFile(t, p, b);
    FillKeepsParties(d, t, p, b);
    PayerIsSecond(Fill(d));
    PayeeIsThird(Fill(d));
    NothingIsKept();
    hide ALayout, BLayout, Paint, Wire, Fill, RecordAt, ShowsNumber, ShowsText, ShowsDigits, ShowsMark, ShowsAmount,
      NameIsClear, Upper, AlnumOnly, PlainCodes, Columns, Repeat;
    var f := Fill(d);
    NoFormFields();
    PayerReadsBack(f.payerGroups[0].payer);
    PayeeReadsBack(f.payerGroups[0].payees[0], f.payerGroups[0].payer.amountCodes);
    PlainNameIsClear(f.payerGroups[0].payees[0], f.payerGroups[0].payer.amountCodes);
    StateBlock(f.payerGroups[0].payees[0], f.payerGroups[0].payer.amountCodes);
  }

  /** Both builders leave every other field of the A and B records blank. */
  lemma BuildersLeaveBlank(div: DividendForm, broker: BrokerForm, opts: Options)
    requires !opts.transmitter.Failed?
    ensures DividendFile(div, opts).Ok? && LeavesBlank(Wire(Fill(DividendFile(div, opts).value)))
    ensures BrokerFile(broker, opts).Ok? && LeavesBlank(Wire(Fill(BrokerFile(broker, opts).value)))
  {
    hide Wire, Fill, LeavesBlank, PickedEIN, DigitsOnly, PlainCodes, DollarsToCents;
    BuilderCodesArePlain();
    var d, b := DividendFile(div, opts).value, BrokerFile(broker, opts).value;
    RestOnWire(d.transmitter, d.payerGroups[0].payer, d.payerGroups[0].payees[0]);
    RestOnWire(b.transmitter, b.payerGroups[0].payer, b.payerGroups[0].payees[0]);
  }
}
