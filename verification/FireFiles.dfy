/** Whole FIRE files: what Marshal fills in, the records it emits, and the method itself. */
module FireFiles {
  import opened GoBasics
  import opened Layouts
  import opened FireRecords
  import opened FireLayouts
  import opened FireRender

  datatype PayerGroup = PayerGroup(payer: Payer, payees: seq<Payee>, endOfPayer: EndOfPayer)

  datatype FileData = FileData(
    transmitter: Transmitter, payerGroups: seq<PayerGroup>, stateTotals: seq<StateTotals>, endOfFile: EndOfFile)

  /** The submission, filled in place by Marshal. */
  class FireFile {
    var transmitter: Transmitter
    var payerGroups: seq<PayerGroup>
    var stateTotals: seq<StateTotals>
    var endOfFile: EndOfFile

    constructor (d: FileData)
      ensures Data() == d
    {
      transmitter := d.transmitter;
      payerGroups := d.payerGroups;
      stateTotals := d.stateTotals;
      endOfFile := d.endOfFile;
    }

    function Data(): FileData
      reads this
    {
      FileData(transmitter, payerGroups, stateTotals, endOfFile)
    }
  }

  // ----- control totals of a group

  lemma GroupTotalsBase()
    ensures GroupTotals([]) == map[]
  {
  }

  lemma GroupTotalsSnoc(payees: seq<Payee>, p: Payee)
    ensures GroupTotals(payees + [p]) == Accumulate(GroupTotals(payees), p.paymentAmounts)
  {
    assert (payees + [p])[..|payees + [p]| - 1] == payees;
  }

  /** A Go map accumulation: totals[c] += amt for every entry of amounts, in int64. */
  function Accumulate(totals: Amounts, amounts: Amounts): Amounts {
    map c | c in totals.Keys + amounts.Keys :: Wrap64(Get(totals, c) + Get(amounts, c))
  }

  function GroupTotals(payees: seq<Payee>): Amounts {
    if payees == [] then map[]
    else Accumulate(GroupTotals(payees[..|payees| - 1]), payees[|payees| - 1].paymentAmounts)
  }

  lemma AccumulateOne(totals: Amounts, done: Amounts, c: char, v: int64)
    requires c !in done
    ensures Get(Accumulate(totals, done), c) == Get(totals, c)
    ensures Accumulate(totals, done)[c := Wrap64(Get(totals, c) + v)] == Accumulate(totals, done[c := v])
  {
    WrapInRange(Get(totals, c));
    hide Wrap64;
  }

  lemma AccumulateNothing(totals: Amounts)
    ensures Accumulate(totals, map[]) == totals
  {
  }

  /** Adds a payee's amounts to the totals, in whatever order the map yields them. */
  method AddToTotals(totals: Amounts, amounts: Amounts) returns (r: Amounts)
    ensures r == Accumulate(totals, amounts)
  {
    hide Wrap64, Accumulate;
    AccumulateNothing(totals);
    r := totals;
    ghost var done: Amounts := map[];
    var rest := amounts.Keys;
    while rest != {}
      invariant rest <= amounts.Keys && done == map c | c in amounts.Keys - rest :: amounts[c]
      invariant r == Accumulate(totals, done)
      decreases |rest|
    {
      var c :| c in rest;
      rest := rest - {c};
      AccumulateOne(totals, done, c, amounts[c]);
      r := r[c := Wrap64(Get(r, c) + amounts[c])];
      done := done[c := amounts[c]];
    }
    assert done == amounts;
  }

  // ----- what Marshal fills in

  /** A field left zero takes the default; any other value stays. */
  function Or(x: int, default: int): int {
    if x == 0 then default else x
  }

  function FillPayer(p: Payer, seqNum: int, year: int): Payer {
    p.(sequenceNum := Or(p.sequenceNum, seqNum), paymentYear := Or(p.paymentYear, year))
  }

  function FillPayee(p: Payee, seqNum: int, year: int): Payee {
    p.(sequenceNum := Or(p.sequenceNum, seqNum), paymentYear := Or(p.paymentYear, year))
  }

  function FillEndOfPayer(e: EndOfPayer, payees: seq<Payee>, seqNum: int): EndOfPayer {
    EndOfPayer(
      Or(e.numPayees, |payees|),
      if e.amountTotals.None? then Some(GroupTotals(payees)) else e.amountTotals,
      Or(e.sequenceNum, seqNum))
  }

  function GroupLen(g: PayerGroup): nat {
    2 + |g.payees|
  }

  function FillPayees(payees: seq<Payee>, seqNum: int, year: int): (r: seq<Payee>)
    ensures |r| == |payees|
  {
    seq(|payees|, j requires 0 <= j < |payees| => FillPayee(payees[j], seqNum + j, year))
  }

  function FillGroup(g: PayerGroup, seqNum: int, year: int): (r: PayerGroup)
    ensures GroupLen(r) == GroupLen(g) && |r.payees| == |g.payees|
  {
    var payer := FillPayer(g.payer, seqNum, year);
    PayerGroup(
      payer,
      FillPayees(g.payees, seqNum + 1, payer.paymentYear),
      FillEndOfPayer(g.endOfPayer, g.payees, seqNum + 1 + |g.payees|))
  }

  /** Number of records in the first i groups. */
  function RecordsBefore(gs: seq<PayerGroup>, i: nat): nat
    requires i <= |gs|
  {
    if i == 0 then 0 else RecordsBefore(gs, i - 1) + GroupLen(gs[i - 1])
  }

  function PayeesBefore(gs: seq<PayerGroup>, i: nat): nat
    requires i <= |gs|
  {
    if i == 0 then 0 else PayeesBefore(gs, i - 1) + |gs[i - 1].payees|
  }

  function FillGroups(gs: seq<PayerGroup>, year: int): (r: seq<PayerGroup>)
    ensures |r| == |gs|
  {
    seq(|gs|, i requires 0 <= i < |gs| => FillGroup(gs[i], 2 + RecordsBefore(gs, i), year))
  }

  function FillStates(ks: seq<StateTotals>, seqNum: int): (r: seq<StateTotals>)
    ensures |r| == |ks|
  {
    seq(|ks|, i requires 0 <= i < |ks| => ks[i].(sequenceNum := Or(ks[i].sequenceNum, seqNum + i)))
  }

  /** The file as Marshal leaves it. */
  function Fill(d: FileData): FileData {
    var gs, ks := d.payerGroups, d.stateTotals;
    var payees := PayeesBefore(gs, |gs|);
    var next := 2 + RecordsBefore(gs, |gs|);
    FileData(
      d.transmitter.(sequenceNum := Or(d.transmitter.sequenceNum, 1),
                     totalPayees := Or(d.transmitter.totalPayees, payees)),
      FillGroups(gs, d.transmitter.paymentYear),
      FillStates(ks, next),
      EndOfFile(Or(d.endOfFile.numPayers, |gs|), Or(d.endOfFile.numPayees, payees),
                Or(d.endOfFile.sequenceNum, next + |ks|)))
  }

  predicate HasFormCode(g: PayerGroup) {
    g.payer.typeOfReturn != ""
  }

  /** No payee's form-specific entries contradict one another. */
  ghost predicate GroupAgrees(g: PayerGroup) {
    forall p <- g.payees :: FormFieldsAgree(p.formSpecificFields, p.stateInfo)
  }

  // ----- the records of a file

  function PayeeRecords(payees: seq<Payee>, codes: string): (rs: seq<string>)
    ensures |rs| == |payees|
  {
    seq(|payees|, j requires 0 <= j < |payees| => Render(BLayout(payees[j], codes)))
  }

  function GroupRecords(g: PayerGroup): (rs: seq<string>)
    ensures |rs| == GroupLen(g)
  {
    [Render(ALayout(g.payer))] + PayeeRecords(g.payees, g.payer.amountCodes) + [Render(CLayout(g.endOfPayer))]
  }

  function GroupsRecords(gs: seq<PayerGroup>): seq<string> {
    if gs == [] then [] else GroupsRecords(gs[..|gs| - 1]) + GroupRecords(gs[|gs| - 1])
  }

  lemma {:induction false} GroupsRecordsCount(gs: seq<PayerGroup>)
    ensures |GroupsRecords(gs)| == RecordsBefore(gs, |gs|)
  {
    hide GroupRecords;
    if gs != [] {
      var n := |gs| - 1;
      RecordsBeforePrefix(gs, n, n);
      GroupsRecordsCount(gs[..n]);
    }
  }

  lemma {:induction false} RecordsBeforePrefix(gs: seq<PayerGroup>, n: nat, i: nat)
    requires i <= n <= |gs|
    ensures RecordsBefore(gs[..n], i) == RecordsBefore(gs, i)
  {
    if i > 0 {
      RecordsBeforePrefix(gs, n, i - 1);
    }
  }

  function StateRecords(ks: seq<StateTotals>): (rs: seq<string>)
    ensures |rs| == |ks|
  {
    seq(|ks|, i requires 0 <= i < |ks| => Render(KLayout(ks[i])))
  }

  function FileRecords(d: FileData): seq<string> {
    [Render(TLayout(d.transmitter))] + GroupsRecords(d.payerGroups) + StateRecords(d.stateTotals)
    + [Render(FLayout(d.endOfFile))]
  }

  /** Records one after another. */
  function Flatten(rs: seq<string>): string {
    if rs == [] then "" else Flatten(rs[..|rs| - 1]) + rs[|rs| - 1]
  }

  // ----- the records of a file whose form-specific entries may overlap

  /** A B record, the form-specific entries written in some order in which their map can be walked. */
  ghost predicate IsPayeeRecord(r: string, p: Payee, codes: string) {
    exists order :: IsWalk(order, p.formSpecificFields) && r == Render(BLayoutInOrder(p, codes, order))
  }

  ghost predicate ArePayeeRecords(rs: seq<string>, payees: seq<Payee>, codes: string) {
    |rs| == |payees| && forall j :: 0 <= j < |rs| ==> IsPayeeRecord(rs[j], payees[j], codes)
  }

  ghost predicate IsGroupOutput(out: string, g: PayerGroup) {
    exists rs :: ArePayeeRecords(rs, g.payees, g.payer.amountCodes)
                 && out == Render(ALayout(g.payer)) + Flatten(rs) + Render(CLayout(g.endOfPayer))
  }

  ghost predicate AreGroupOutputs(outs: seq<string>, gs: seq<PayerGroup>) {
    |outs| == |gs| && forall i :: 0 <= i < |outs| ==> IsGroupOutput(outs[i], gs[i])
  }

  /** The bytes of a file: its records in order, each payee's entries in some walk of its own map. */
  ghost predicate IsFileOutput(out: string, d: FileData) {
    exists outs :: AreGroupOutputs(outs, d.payerGroups)
                   && out == Render(TLayout(d.transmitter)) + (Flatten(outs) + Flatten(StateRecords(d.stateTotals)))
                             + Render(FLayout(d.endOfFile))
  }

  /** The bytes of a file whose counters are as given. */
  function Wire(d: FileData): string {
    Flatten(FileRecords(d))
  }

  lemma FlattenBase()
    ensures Flatten([]) == ""
  {
  }

  lemma FlattenSnoc(rs: seq<string>, r: string)
    ensures Flatten(rs + [r]) == Flatten(rs) + r
  {
    assert (rs + [r])[..|rs + [r]| - 1] == rs;
  }

  lemma {:induction false} FlattenConcat(rs: seq<string>, ss: seq<string>)
    ensures Flatten(rs + ss) == Flatten(rs) + Flatten(ss)
  {
    if ss == [] {
      assert rs + ss == rs;
    } else {
      var ss', s := ss[..|ss| - 1], ss[|ss| - 1];
      FlattenConcat(rs, ss');
      assert rs + ss == (rs + ss') + [s];
      FlattenSnoc(rs + ss', s);
      assert Flatten(ss) == Flatten(ss') + s;
      AppendAssoc(Flatten(rs), Flatten(ss'), s);
    }
  }

  lemma AppendAssoc(a: string, b: string, c: string)
    ensures (a + b) + c == a + (b + c)
  {
  }

  // ----- Marshal

  /** The B records of one payer, in order; the payees come back filled in, with their totals. */
  method MarshalPayees(payees: seq<Payee>, codes: string, seqNum: int, year: int)
    returns (out: string, filled: seq<Payee>, totals: Amounts, ghost records: seq<string>)
    ensures filled == FillPayees(payees, seqNum, year)
    ensures out == Flatten(records) && ArePayeeRecords(records, filled, codes)
    ensures totals == GroupTotals(payees)
    ensures |out| == (RECORD_LEN + 2) * |payees|
    ensures (forall p <- payees :: FormFieldsAgree(p.formSpecificFields, p.stateInfo)) ==>
      out == Flatten(PayeeRecords(filled, codes))
  {
    hide BLayout, BLayoutInOrder, Render, FormFieldsAgree, Accumulate, GroupTotals, Flatten;
    GroupTotalsBase();
    FlattenBase();
    var num := seqNum;
    out, filled, totals := "", [], map[];
    records := [];
    for j := 0 to |payees|
      invariant num == seqNum + j && |filled| == |records| == j
      invariant forall i :: 0 <= i < j ==> filled[i] == FillPayee(payees[i], seqNum + i, year)
      invariant totals == GroupTotals(payees[..j])
      invariant |out| == (RECORD_LEN + 2) * j && out == Flatten(records)
      invariant ArePayeeRecords(records, filled, codes)
      invariant forall i :: 0 <= i < j && FormFieldsAgree(payees[i].formSpecificFields, payees[i].stateInfo) ==>
        records[i] == Render(BLayout(filled[i], codes))
    {
      var pe := FillPayee(payees[j], num, year);
      num := num + 1;
      var bRec, order := MarshalPayee(pe, codes);
      assert IsPayeeRecord(bRec, pe, codes);
      FlattenSnoc(records, bRec);
      out, records, filled := out + bRec, records + [bRec], filled + [pe];
      totals := AddToTotals(totals, pe.paymentAmounts);
      assert payees[..j + 1] == payees[..j] + [payees[j]];
      GroupTotalsSnoc(payees[..j], payees[j]);
    }
    assert payees[..|payees|] == payees;
    if forall p <- payees :: FormFieldsAgree(p.formSpecificFields, p.stateInfo) {
      assert records == PayeeRecords(filled, codes);
    }
  }

  /** One A record, its B records and its C record; the group comes back filled in. */
  method MarshalGroup(g: PayerGroup, seqNum: int, year: int)
    returns (out: Result<string, FireError>, grp: PayerGroup)
    ensures HasFormCode(g) ==> out.Ok? && grp == FillGroup(g, seqNum, year)
    ensures HasFormCode(g) ==> |out.value| == (RECORD_LEN + 2) * GroupLen(g)
    ensures HasFormCode(g) ==> IsGroupOutput(out.value, grp)
    ensures HasFormCode(g) && GroupAgrees(g) ==> out.value == Flatten(GroupRecords(grp))
    ensures !HasFormCode(g) ==>
      out == Err(UnsupportedFormCode) && grp == g.(payer := FillPayer(g.payer, seqNum, year))
  {
    hide ALayout, BLayout, CLayout, Render, Flatten, GroupTotals, FillPayees, PayeeRecords, GroupRecords, Or,
      ArePayeeRecords, IsGroupOutput;
    var payer := FillPayer(g.payer, seqNum, year);
    grp := g.(payer := payer);
    var aRec := MarshalPayer(payer);
    if aRec.Err? {
      return Err(aRec.error), grp;
    }
    var bRecs, filled, totals, records := MarshalPayees(g.payees, payer.amountCodes, seqNum + 1, payer.paymentYear);
    var end := EndOfPayer(
      Or(g.endOfPayer.numPayees, |g.payees|),
      if g.endOfPayer.amountTotals.None? then Some(totals) else g.endOfPayer.amountTotals,
      Or(g.endOfPayer.sequenceNum, seqNum + 1 + |g.payees|));
    grp := PayerGroup(payer, filled, end);
    var cRec := MarshalEndOfPayer(end);
    if GroupAgrees(g) {
      GroupIsFlat(grp);
    }
    IsOutput(grp, records);
    return Ok(aRec.value + bRecs + cRec), grp;
  }

  lemma IsOutput(g: PayerGroup, records: seq<string>)
    requires ArePayeeRecords(records, g.payees, g.payer.amountCodes)
    ensures IsGroupOutput(Render(ALayout(g.payer)) + Flatten(records) + Render(CLayout(g.endOfPayer)), g)
  {
    hide ALayout, CLayout, Render, Flatten, ArePayeeRecords;
  }

  lemma GroupIsFlat(g: PayerGroup)
    ensures Flatten(GroupRecords(g)) ==
      Render(ALayout(g.payer)) + Flatten(PayeeRecords(g.payees, g.payer.amountCodes)) + Render(CLayout(g.endOfPayer))
  {
    hide ALayout, BLayout, CLayout;
    var a, bs := [Render(ALayout(g.payer))], PayeeRecords(g.payees, g.payer.amountCodes);
    assert Flatten(a) == Flatten([]) + a[0] == a[0] by { assert a[..0] == []; }
    FlattenConcat(a, bs);
    FlattenSnoc(a + bs, Render(CLayout(g.endOfPayer)));
  }

  lemma CountsBase(gs: seq<PayerGroup>)
    ensures RecordsBefore(gs, 0) == 0 && PayeesBefore(gs, 0) == 0
  {
  }

  lemma CountsSnoc(gs: seq<PayerGroup>, i: nat)
    requires i < |gs|
    ensures RecordsBefore(gs, i + 1) == RecordsBefore(gs, i) + GroupLen(gs[i])
    ensures PayeesBefore(gs, i + 1) == PayeesBefore(gs, i) + |gs[i].payees|
  {
  }

  lemma GroupsRecordsSnoc(gs: seq<PayerGroup>, g: PayerGroup)
    ensures GroupsRecords(gs + [g]) == GroupsRecords(gs) + GroupRecords(g)
  {
    hide GroupRecords;
    assert (gs + [g])[..|gs + [g]| - 1] == gs;
  }

  /** The groups of a file, in order, stopping at the first one without a form code. */
  method MarshalGroups(gs: seq<PayerGroup>, year: int)
    returns (err: Option<FireError>, left: seq<PayerGroup>, out: string, totalPayees: int, num: int,
             ghost outs: seq<string>)
    ensures err == if forall g <- gs :: HasFormCode(g) then None else Some(UnsupportedFormCode)
    ensures err.Some? ==> StoppedAt(gs, left, year)
    ensures err.None? ==>
      && left == FillGroups(gs, year)
      && totalPayees == PayeesBefore(gs, |gs|) && num == 2 + RecordsBefore(gs, |gs|)
      && |out| == (RECORD_LEN + 2) * RecordsBefore(gs, |gs|)
      && out == Flatten(outs) && AreGroupOutputs(outs, left)
      && ((forall g <- gs :: GroupAgrees(g)) ==> out == Flatten(GroupsRecords(left)))
  {
    hide Flatten, GroupRecords, GroupsRecords, FillGroup, FillGroups, FillPayer, GroupAgrees, HasFormCode, GroupLen,
      RecordsBefore, PayeesBefore, IsGroupOutput;
    ghost var filled := FillGroups(gs, year);
    err, left, out, totalPayees, num, outs := None, [], "", 0, 2, [];
    NoGroups();
    FlattenBase();
    CountsBase(gs);
    for i := 0 to |gs|
      invariant err.None? && left == filled[..i]
      invariant forall j :: 0 <= j < i ==> HasFormCode(gs[j])
      invariant totalPayees == PayeesBefore(gs, i) && num == 2 + RecordsBefore(gs, i)
      invariant |out| == (RECORD_LEN + 2) * RecordsBefore(gs, i)
      invariant out == Flatten(outs) && AreGroupOutputs(outs, left)
      invariant (forall g <- gs :: GroupAgrees(g)) ==> out == Flatten(GroupsRecords(left))
    {
      FilledAt(gs, year, i);
      var bytes, grp := MarshalGroup(gs[i], num, year);
      if bytes.Err? {
        err, left := Some(bytes.error), left + [grp] + gs[i + 1..];
        assert IsFirstWithoutCode(gs, i) && left == FilledUpTo(gs, year, i);
        return;
      }
      CountsSnoc(gs, i);
      FlattenConcat(GroupsRecords(left), GroupRecords(grp));
      GroupsRecordsSnoc(left, grp);
      totalPayees, num := totalPayees + |grp.payees|, num + GroupLen(grp);
      FlattenSnoc(outs, bytes.value);
      left, out, outs := left + [grp], out + bytes.value, outs + [bytes.value];
    }
  }

  lemma NoGroups()
    ensures Flatten(GroupsRecords([])) == ""
  {
  }

  /** Groups left behind by a failure: those before the first one without a form code are filled,
      that one has its A record numbered, the rest are untouched. */
  ghost predicate StoppedAt(gs: seq<PayerGroup>, left: seq<PayerGroup>, year: int) {
    exists i :: 0 <= i < |gs| && IsFirstWithoutCode(gs, i) && left == FilledUpTo(gs, year, i)
  }

  ghost predicate IsFirstWithoutCode(gs: seq<PayerGroup>, i: nat)
    requires i < |gs|
  {
    !HasFormCode(gs[i]) && forall j :: 0 <= j < i ==> HasFormCode(gs[j])
  }

  function FilledUpTo(gs: seq<PayerGroup>, year: int, i: nat): seq<PayerGroup>
    requires i < |gs|
  {
    FillGroups(gs, year)[..i]
    + [gs[i].(payer := FillPayer(gs[i].payer, 2 + RecordsBefore(gs, i), year))]
    + gs[i + 1..]
  }

  /** The K records, in order; the totals records come back numbered. */
  method MarshalStates(ks: seq<StateTotals>, seqNum: int) returns (left: seq<StateTotals>, out: string)
    ensures left == FillStates(ks, seqNum)
    ensures |out| == (RECORD_LEN + 2) * |ks| && out == Flatten(StateRecords(left))
  {
    hide KLayout, Render, Flatten;
    FlattenBase();
    left, out := [], "";
    for i := 0 to |ks|
      invariant left == FillStates(ks, seqNum)[..i]
      invariant |out| == (RECORD_LEN + 2) * i && out == Flatten(StateRecords(left))
    {
      var st := ks[i];
      if st.sequenceNum == 0 {
        st := st.(sequenceNum := seqNum + i);
      }
      assert st == FillStates(ks, seqNum)[i];
      var kRec := MarshalStateTotals(st);
      FlattenSnoc(StateRecords(left), kRec);
      assert StateRecords(left + [st]) == StateRecords(left) + [kRec];
      left, out := left + [st], out + kRec;
    }
  }

  /** What a run of Marshal over data d returns and leaves behind. */
  ghost predicate Marshalled(d: FileData, left: FileData, r: Result<string, FireError>) {
    var gs := d.payerGroups;
    if forall g <- gs :: HasFormCode(g) then
      && r.Ok?
      && left == Fill(d)
      && |r.value| == (RECORD_LEN + 2) * (2 + RecordsBefore(gs, |gs|) + |d.stateTotals|)
      && IsFileOutput(r.value, left)
      && ((forall g <- gs :: GroupAgrees(g)) ==> r.value == Wire(left))
    else
      && r == Err(UnsupportedFormCode)
      && left.transmitter == d.transmitter.(sequenceNum := Or(d.transmitter.sequenceNum, 1))
      && StoppedAt(gs, left.payerGroups, d.transmitter.paymentYear)
      && left.stateTotals == d.stateTotals && left.endOfFile == d.endOfFile
  }

  /** Serialises a file, filling its counters in place. */
  method Marshal(f: FireFile?) returns (r: Result<string, FireError>)
    modifies f
    ensures f == null ==> r == Err(NilFile)
    ensures f != null ==> Marshalled(old(f.Data()), f.Data(), r)
  {
    hide Marshalled, Or, TLayout, FLayout, Render, FillGroups, FillStates, HasFormCode, GroupAgrees, StoppedAt,
      GroupsRecords, StateRecords, Flatten, RecordsBefore, PayeesBefore, AreGroupOutputs;
    if f == null {
      return Err(NilFile);
    }
    ghost var d := f.Data();
    f.transmitter := f.transmitter.(sequenceNum := Or(f.transmitter.sequenceNum, 1));
    var tRec := MarshalTransmitter(f.transmitter);
    var err, groups, body, totalPayees, num, outs := MarshalGroups(f.payerGroups, f.transmitter.paymentYear);
    f.payerGroups := groups;
    if err.Some? {
      GroupsFailed(d, f.Data());
      return Err(err.value);
    }
    var states, kRecs := MarshalStates(f.stateTotals, num);
    f.stateTotals := states;
    f.endOfFile := EndOfFile(
      Or(f.endOfFile.numPayers, |groups|), Or(f.endOfFile.numPayees, totalPayees),
      Or(f.endOfFile.sequenceNum, num + |states|));
    f.transmitter := f.transmitter.(totalPayees := Or(f.transmitter.totalPayees, totalPayees));
    var tRec2 := MarshalTransmitter(f.transmitter);
    var buf := tRec + (body + kRecs);
    var remainder := buf[RECORD_LEN + 2..];
    DropFirst(tRec, body + kRecs);
    var fRec := MarshalEndOfFile(f.endOfFile);
    GroupsDone(d, f.Data(), totalPayees, num, body, kRecs, outs);
    return Ok(tRec2 + remainder + fRec);
  }

  lemma DropFirst(a: string, b: string)
    ensures (a + b)[|a|..] == b
  {
  }

  lemma GroupsFailed(d: FileData, left: FileData)
    requires exists g <- d.payerGroups :: !HasFormCode(g)
    requires StoppedAt(d.payerGroups, left.payerGroups, d.transmitter.paymentYear)
    requires left.transmitter == d.transmitter.(sequenceNum := Or(d.transmitter.sequenceNum, 1))
    requires left.stateTotals == d.stateTotals && left.endOfFile == d.endOfFile
    ensures Marshalled(d, left, Err(UnsupportedFormCode))
  {
    hide StoppedAt, HasFormCode;
  }

  lemma GroupsDone(d: FileData, left: FileData, totalPayees: int, num: int, body: string, kRecs: string,
                   outs: seq<string>)
    requires forall g <- d.payerGroups :: HasFormCode(g)
    requires totalPayees == PayeesBefore(d.payerGroups, |d.payerGroups|)
    requires num == 2 + RecordsBefore(d.payerGroups, |d.payerGroups|)
    requires left == FileData(
      d.transmitter.(sequenceNum := Or(d.transmitter.sequenceNum, 1),
                     totalPayees := Or(d.transmitter.totalPayees, totalPayees)),
      FillGroups(d.payerGroups, d.transmitter.paymentYear),
      FillStates(d.stateTotals, num),
      EndOfFile(Or(d.endOfFile.numPayers, |d.payerGroups|), Or(d.endOfFile.numPayees, totalPayees),
                Or(d.endOfFile.sequenceNum, num + |d.stateTotals|)))
    requires |body| == (RECORD_LEN + 2) * RecordsBefore(d.payerGroups, |d.payerGroups|)
    requires body == Flatten(outs) && AreGroupOutputs(outs, left.payerGroups)
    requires (forall g <- d.payerGroups :: GroupAgrees(g)) ==> body == Flatten(GroupsRecords(left.payerGroups))
    requires |kRecs| == (RECORD_LEN + 2) * |d.stateTotals| && kRecs == Flatten(StateRecords(left.stateTotals))
    ensures Marshalled(d, left,
      Ok(Render(TLayout(left.transmitter)) + (body + kRecs) + Render(FLayout(left.endOfFile))))
  {
    hide TLayout, FLayout, FillGroups, GroupAgrees, HasFormCode, GroupsRecords, StateRecords, FillStates,
      Wire, Flatten, RecordsBefore, PayeesBefore, AreGroupOutputs;
    FileIsFlat(left);
  }

  lemma FilledAt(gs: seq<PayerGroup>, year: int, i: nat)
    requires i < |gs|
    ensures FillGroups(gs, year)[i] == FillGroup(gs[i], 2 + RecordsBefore(gs, i), year)
  {
    hide FillGroup, RecordsBefore;
  }

  lemma {:induction false} CountsUnchanged(gs: seq<PayerGroup>, year: int, i: nat)
    requires i <= |gs|
    ensures RecordsBefore(FillGroups(gs, year), i) == RecordsBefore(gs, i)
    ensures PayeesBefore(FillGroups(gs, year), i) == PayeesBefore(gs, i)
  {
    hide FillGroup, FillGroups;
    if i > 0 {
      CountsUnchanged(gs, year, i - 1);
      FilledAt(gs, year, i - 1);
    }
  }

  lemma FileIsFlat(d: FileData)
    ensures Wire(d) == Render(TLayout(d.transmitter)) + Flatten(GroupsRecords(d.payerGroups))
      + Flatten(StateRecords(d.stateTotals)) + Render(FLayout(d.endOfFile))
  {
    hide TLayout, FLayout, KLayout, GroupsRecords;
    var t, gs, ks := [Render(TLayout(d.transmitter))], GroupsRecords(d.payerGroups), StateRecords(d.stateTotals);
    assert Flatten(t) == Flatten([]) + t[0] == t[0] by { assert t[..0] == []; }
    FlattenConcat(t, gs);
    FlattenConcat(t + gs, ks);
    FlattenSnoc(t + gs + ks, Render(FLayout(d.endOfFile)));
  }
}
