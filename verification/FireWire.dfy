/** The emitted file as a reader sees it: record grammar, numbering, counts, control totals, idempotence. */
module FireWire {
  import opened GoBasics
  import opened Decimal
  import opened Layouts
  import opened RecordBuffer
  import opened FireRecords
  import opened FireLayouts
  import opened FireReading
  import opened FirePayees
  import opened FireFiles

  const WIRE_LEN: nat := RECORD_LEN + 2

  /** The i-th record of a byte stream, with its CR-LF. */
  function Slot(wire: string, i: nat): string {
    if WIRE_LEN * (i + 1) <= |wire| then wire[WIRE_LEN * i..WIRE_LEN * (i + 1)] else ""
  }

  /** The columns of the i-th record; a stream that is too short reads as blank. */
  function RecordAt(wire: string, i: nat): (r: string)
    ensures |r| == RECORD_LEN
  {
    var s := Slot(wire, i);
    if |s| == WIRE_LEN then s[..RECORD_LEN] else Repeat(' ', RECORD_LEN)
  }

  ghost predicate AllRecords(rs: seq<string>) {
    forall r <- rs :: |r| == WIRE_LEN
  }

  lemma {:induction false} FlattenLength(rs: seq<string>)
    requires AllRecords(rs)
    ensures |Flatten(rs)| == WIRE_LEN * |rs|
  {
    hide Flatten;
    FlattenBase();
    if rs != [] {
      var n := |rs| - 1;
      FlattenLength(rs[..n]);
      FlattenSnoc(rs[..n], rs[n]);
      assert rs[..n] + [rs[n]] == rs;
    }
  }

  lemma {:induction false} RecordOfFlatten(rs: seq<string>, i: nat)
    requires AllRecords(rs) && i < |rs|
    ensures |Flatten(rs)| == WIRE_LEN * |rs|
    ensures Slot(Flatten(rs), i) == rs[i]
  {
    hide Flatten;
    var n := |rs| - 1;
    FlattenLength(rs);
    FlattenLength(rs[..n]);
    FlattenSnoc(rs[..n], rs[n]);
    assert rs[..n] + [rs[n]] == rs;
    if i < n {
      RecordOfFlatten(rs[..n], i);
      PrefixRecord(Flatten(rs[..n]), rs[n], i);
    } else {
      assert Flatten(rs)[WIRE_LEN * n..] == rs[n];
    }
  }

  lemma PrefixRecord(a: string, b: string, i: nat)
    requires WIRE_LEN * (i + 1) <= |a|
    ensures Slot(a + b, i) == Slot(a, i)
  {
  }

  // ----- where each record of a file is

  function GroupStart(d: FileData, i: nat): nat
    requires i <= |d.payerGroups|
  {
    1 + RecordsBefore(d.payerGroups, i)
  }

  function RecordCount(d: FileData): (n: nat)
    ensures n >= 2
  {
    2 + RecordsBefore(d.payerGroups, |d.payerGroups|) + |d.stateTotals|
  }

  lemma {:induction false} GroupsRecordsAt(gs: seq<PayerGroup>, i: nat, j: nat)
    requires i < |gs| && j < GroupLen(gs[i])
    ensures |GroupsRecords(gs)| == RecordsBefore(gs, |gs|)
    ensures RecordsBefore(gs, i) + j < RecordsBefore(gs, |gs|)
    ensures GroupsRecords(gs)[RecordsBefore(gs, i) + j] == GroupRecords(gs[i])[j]
  {
    hide GroupRecords;
    var n := |gs| - 1;
    GroupsRecordsCount(gs);
    GroupsRecordsCount(gs[..n]);
    RecordsBeforePrefix(gs, n, n);
    if i < n {
      RecordsBeforePrefix(gs, n, i);
      GroupsRecordsAt(gs[..n], i, j);
    }
  }

  lemma {:induction false} GroupsAreRecords(gs: seq<PayerGroup>)
    ensures AllRecords(GroupsRecords(gs))
  {
    if gs != [] {
      GroupsAreRecords(gs[..|gs| - 1]);
      GroupIsRecords(gs[|gs| - 1]);
    }
  }

  lemma GroupIsRecords(g: PayerGroup)
    ensures AllRecords(GroupRecords(g))
  {
    hide ALayout, BLayout, CLayout;
  }

  /** The i-th record a file calls for. */
  function FileRecord(d: FileData, i: nat): string {
    var rs := FileRecords(d);
    if i < |rs| then rs[i] else ""
  }

  /** Every record of a file, by position: T, then per group A, B..., C, then the K records, then F. */
  lemma FilePositions(d: FileData)
    ensures AllRecords(FileRecords(d)) && |FileRecords(d)| == RecordCount(d)
    ensures FileRecord(d, 0) == Render(TLayout(d.transmitter))
    ensures FileRecord(d, RecordCount(d) - 1) == Render(FLayout(d.endOfFile))
    ensures forall i :: 0 <= i < |d.stateTotals| ==>
      FileRecord(d, GroupStart(d, |d.payerGroups|) + i) == Render(KLayout(d.stateTotals[i]))
  {
    hide TLayout, FLayout, KLayout, GroupsRecords, RecordsBefore;
    GroupsAreRecords(d.payerGroups);
    GroupsRecordsCount(d.payerGroups);
  }

  /** The records of the groups follow the T record. */
  lemma GroupsFollow(d: FileData, n: nat)
    requires n < |GroupsRecords(d.payerGroups)|
    ensures FileRecord(d, 1 + n) == GroupsRecords(d.payerGroups)[n]
  {
    hide TLayout, FLayout, StateRecords, GroupsRecords;
  }

  lemma GroupPosition(d: FileData, i: nat, j: nat)
    requires i < |d.payerGroups| && j < GroupLen(d.payerGroups[i])
    ensures GroupStart(d, i) + j < RecordCount(d)
    ensures FileRecord(d, GroupStart(d, i) + j) == GroupRecords(d.payerGroups[i])[j]
  {
    hide FileRecord, GroupsRecords, GroupRecords, RecordsBefore, GroupLen;
    GroupsRecordsAt(d.payerGroups, i, j);
    GroupsFollow(d, RecordsBefore(d.payerGroups, i) + j);
  }

  /** The i-th record on the wire is the i-th record of the file. */
  lemma WireRecord(d: FileData, i: nat)
    requires i < RecordCount(d)
    ensures |Wire(d)| == WIRE_LEN * RecordCount(d)
    ensures Slot(Wire(d), i) == FileRecord(d, i)
  {
    hide FileRecords, RecordCount;
    FilePositions(d);
    RecordOfFlatten(FileRecords(d), i);
  }

  // ----- record types and sequence numbers

  function KindOf(record: string): char {
    if record == "" then ' ' else record[0]
  }

  function NumberOf(record: string): nat {
    if |record| == WIRE_LEN then Value(Columns(record, 500, 507)) else 0
  }

  ghost predicate KindAndNumber(record: string, kind: char, n: int) {
    KindOf(record) == kind && NumberOf(record) == Abs(n) % Pow10(8)
  }

  lemma RenderedKind(l: Layout, kind: char, n: int)
    requires ShowsMark(Paint(l), 1, true, kind) && ShowsNumber(Paint(l), 500, 507, n)
    ensures KindAndNumber(Render(l), kind, n)
  {
    hide Paint, Value, Pow10;
    assert Columns(Render(l), 500, 507) == Columns(Paint(l), 500, 507);
  }

  ghost predicate GroupClear(g: PayerGroup) {
    forall p <- g.payees :: FormFieldsClear(p.formSpecificFields)
  }

  /** Clear groups leave Marshal no freedom: its bytes are the file's wire form. */
  lemma ClearGroupsAgree(g: PayerGroup)
    requires GroupClear(g)
    ensures GroupAgrees(g)
  {
    hide FormFieldsAgree, FormFieldsApart;
    forall p <- g.payees { ApartAgree(p.formSpecificFields, p.stateInfo); }
  }

  ghost predicate AllClear(gs: seq<PayerGroup>) {
    forall g <- gs :: GroupClear(g)
  }

  /** The records of a group: one A, a B per payee, one C, each under its own sequence number. */
  lemma GroupKinds(g: PayerGroup)
    requires GroupClear(g)
    ensures KindAndNumber(GroupRecords(g)[0], 'A', g.payer.sequenceNum)
    ensures forall j :: 0 <= j < |g.payees| ==> KindAndNumber(GroupRecords(g)[1 + j], 'B', g.payees[j].sequenceNum)
    ensures KindAndNumber(GroupRecords(g)[1 + |g.payees|], 'C', g.endOfPayer.sequenceNum)
  {
    hide ALayout, BLayout, CLayout, Paint, Render, KindAndNumber, FormFieldsClear, ShowsMark, ShowsNumber, ShowsTotal,
      ShowsText, ShowsDigits, ShowsName, ShowsAmount, Upper, AlnumOnly;
    PayerReadsBack(g.payer);
    RenderedKind(ALayout(g.payer), 'A', g.payer.sequenceNum);
    forall j | 0 <= j < |g.payees|
      ensures KindAndNumber(GroupRecords(g)[1 + j], 'B', g.payees[j].sequenceNum)
    {
      PayeeKind(g.payees[j], g.payer.amountCodes);
    }
    EndOfPayerReadsBack(g.endOfPayer);
    RenderedKind(CLayout(g.endOfPayer), 'C', g.endOfPayer.sequenceNum);
  }

  lemma PayeeKind(p: Payee, codes: string)
    requires FormFieldsClear(p.formSpecificFields)
    ensures KindAndNumber(Render(BLayout(p, codes)), 'B', p.sequenceNum)
  {
    hide BLayout, Paint, Render, KindAndNumber, FormFieldsClear, ShowsMark, ShowsNumber, ShowsText, ShowsDigits,
      ShowsName, ShowsAmount, Upper, AlnumOnly;
    PayeeReadsBack(p, codes);
    RenderedKind(BLayout(p, codes), 'B', p.sequenceNum);
  }

  // ----- the grammar T (A B* C)* K* F

  datatype Place = BeforeFile | BetweenGroups | InGroup | InStates | AfterFile | Lost

  /** One step of a reader that checks the order of the record types. */
  function Step(at: Place, kind: char): Place {
    match at
    case BeforeFile => if kind == 'T' then BetweenGroups else Lost
    case BetweenGroups =>
      if kind == 'A' then InGroup else if kind == 'K' then InStates else if kind == 'F' then AfterFile else Lost
    case InGroup => if kind == 'B' then InGroup else if kind == 'C' then BetweenGroups else Lost
    case InStates => if kind == 'K' then InStates else if kind == 'F' then AfterFile else Lost
    case AfterFile => Lost
    case Lost => Lost
  }

  function Read(at: Place, rs: seq<string>): Place {
    if rs == [] then at else Step(Read(at, rs[..|rs| - 1]), KindOf(rs[|rs| - 1]))
  }

  /** How many of the records are of a kind. */
  function Count(kind: char, rs: seq<string>): nat {
    if rs == [] then 0 else Count(kind, rs[..|rs| - 1]) + (if KindOf(rs[|rs| - 1]) == kind then 1 else 0)
  }

  lemma {:induction false} ReadConcat(at: Place, rs: seq<string>, ss: seq<string>)
    ensures Read(at, rs + ss) == Read(Read(at, rs), ss)
    ensures forall kind :: Count(kind, rs + ss) == Count(kind, rs) + Count(kind, ss)
  {
    hide KindOf, Step;
    if ss == [] {
      assert rs + ss == rs;
    } else {
      var n := |ss| - 1;
      ReadConcat(at, rs, ss[..n]);
      assert (rs + ss)[..|rs + ss| - 1] == rs + ss[..n];
    }
  }

  /** A run of records of one kind that leaves the reader where it is. */
  lemma {:induction false} ReadRun(at: Place, kind: char, rs: seq<string>)
    requires Step(at, kind) == at && forall r <- rs :: KindOf(r) == kind
    ensures Read(at, rs) == at && Count(kind, rs) == |rs|
    ensures forall other :: other != kind ==> Count(other, rs) == 0
  {
    hide KindOf, Step;
    if rs != [] {
      ReadRun(at, kind, rs[..|rs| - 1]);
    }
  }

  lemma ReadOne(at: Place, r: string)
    ensures Read(at, [r]) == Step(at, KindOf(r))
    ensures forall kind :: Count(kind, [r]) == if KindOf(r) == kind then 1 else 0
  {
    assert [r][..0] == [];
  }

  /** How many records of a kind the groups hold. */
  function RecordsOfKind(kind: char, groups: nat, payees: nat): nat {
    if kind == 'A' || kind == 'C' then groups else if kind == 'B' then payees else 0
  }

  lemma ReadInOrder(a: string, bs: seq<string>, c: string)
    requires KindOf(a) == 'A' && KindOf(c) == 'C' && forall j :: 0 <= j < |bs| ==> KindOf(bs[j]) == 'B'
    ensures Read(BetweenGroups, [a] + bs + [c]) == BetweenGroups
    ensures forall kind :: Count(kind, [a] + bs + [c]) == RecordsOfKind(kind, 1, |bs|)
  {
    hide KindOf, Read, Count;
    ReadOne(BetweenGroups, a);
    ReadRun(InGroup, 'B', bs);
    ReadOne(InGroup, c);
    ReadConcat(BetweenGroups, [a], bs);
    ReadConcat(BetweenGroups, [a] + bs, [c]);
  }

  lemma GroupParts(g: PayerGroup) returns (a: string, bs: seq<string>, c: string)
    ensures GroupRecords(g) == [a] + bs + [c] && |bs| == |g.payees|
  {
    hide ALayout, BLayout, CLayout, Render;
    a, c := Render(ALayout(g.payer)), Render(CLayout(g.endOfPayer));
    bs := PayeeRecords(g.payees, g.payer.amountCodes);
  }

  lemma GroupInOrder(g: PayerGroup) returns (a: string, bs: seq<string>, c: string)
    requires GroupClear(g)
    ensures GroupRecords(g) == [a] + bs + [c] && |bs| == |g.payees|
    ensures KindOf(a) == 'A' && KindOf(c) == 'C' && forall j :: 0 <= j < |bs| ==> KindOf(bs[j]) == 'B'
  {
    hide GroupRecords, KindOf, NumberOf, GroupClear, Pow10;
    GroupKinds(g);
    a, bs, c := GroupParts(g);
    assert GroupRecords(g)[1 + |bs|] == c;
    forall j | 0 <= j < |bs| ensures KindOf(bs[j]) == 'B' {
      assert KindAndNumber(GroupRecords(g)[1 + j], 'B', g.payees[j].sequenceNum);
    }
  }

  /** A group read between groups ends between groups, and holds one A, one C and a B per payee. */
  lemma ReadGroup(g: PayerGroup)
    requires GroupClear(g)
    ensures Read(BetweenGroups, GroupRecords(g)) == BetweenGroups
    ensures forall kind :: Count(kind, GroupRecords(g)) == RecordsOfKind(kind, 1, |g.payees|)
  {
    hide *;
    var a, bs, c := GroupInOrder(g);
    ReadInOrder(a, bs, c);
  }

  lemma {:induction false} ReadGroups(gs: seq<PayerGroup>)
    requires AllClear(gs)
    ensures Read(BetweenGroups, GroupsRecords(gs)) == BetweenGroups
    ensures forall kind :: Count(kind, GroupsRecords(gs)) == RecordsOfKind(kind, |gs|, PayeesBefore(gs, |gs|))
  {
    hide GroupRecords, KindOf, Step, GroupClear;
    if gs != [] {
      var n := |gs| - 1;
      ReadGroups(gs[..n]);
      ReadGroup(gs[n]);
      ReadConcat(BetweenGroups, GroupsRecords(gs[..n]), GroupRecords(gs[n]));
      PayeesBeforePrefix(gs, n, n);
    }
  }

  lemma {:induction false} PayeesBeforePrefix(gs: seq<PayerGroup>, n: nat, i: nat)
    requires i <= n <= |gs|
    ensures PayeesBefore(gs[..n], i) == PayeesBefore(gs, i)
  {
    if i > 0 {
      PayeesBeforePrefix(gs, n, i - 1);
    }
  }

  /** The records on a byte stream. */
  function Slots(wire: string): seq<string> {
    seq(|wire| / WIRE_LEN, i requires 0 <= i => Slot(wire, i))
  }

  lemma SlotsOfFlatten(rs: seq<string>)
    requires AllRecords(rs)
    ensures |Flatten(rs)| == WIRE_LEN * |rs| && Slots(Flatten(rs)) == rs
  {
    hide Flatten, Slot, AllRecords;
    FlattenLength(rs);
    forall i | 0 <= i < |rs| { RecordOfFlatten(rs, i); }
  }

  /** Cutting the bytes of a file every 752 gives its records back. */
  lemma SlotsOfWire(d: FileData)
    ensures |Wire(d)| == WIRE_LEN * RecordCount(d)
    ensures Slots(Wire(d)) == FileRecords(d)
  {
    hide FileRecords, RecordCount, Flatten, Slots, AllRecords;
    FilePositions(d);
    SlotsOfFlatten(FileRecords(d));
  }

  lemma ReadStates(ks: seq<StateTotals>)
    ensures forall r <- StateRecords(ks) :: KindOf(r) == 'K'
  {
    hide KLayout, Paint, Render, ShowsTotal, ShowsText, ShowsNumber, ShowsMark, KindOf, NumberOf;
    forall i | 0 <= i < |ks| ensures KindOf(StateRecords(ks)[i]) == 'K' {
      StateTotalsReadBack(ks[i]);
      RenderedKind(KLayout(ks[i]), 'K', ks[i].sequenceNum);
    }
  }

  lemma EndsKinds(d: FileData)
    ensures KindAndNumber(Render(TLayout(d.transmitter)), 'T', d.transmitter.sequenceNum)
    ensures KindAndNumber(Render(FLayout(d.endOfFile)), 'F', d.endOfFile.sequenceNum)
  {
    hide TLayout, FLayout, Paint, Render, KindAndNumber, ShowsText, ShowsNumber, ShowsMark, ShowsDigits, BlankFill,
      Upper;
    TransmitterReadsBack(d.transmitter);
    RenderedKind(TLayout(d.transmitter), 'T', d.transmitter.sequenceNum);
    EndOfFileReadsBack(d.endOfFile);
    RenderedKind(FLayout(d.endOfFile), 'F', d.endOfFile.sequenceNum);
  }

  /** File grammar: the emitted bytes are whole records in the order T (A B* C)* K* F, with one A and one C
      per payer group, one B per payee and one K per state. */
  lemma FileGrammar(d: FileData)
    requires AllClear(d.payerGroups)
    ensures var rs := Slots(Wire(d));
      && |Wire(d)| == WIRE_LEN * RecordCount(d)
      && Read(BeforeFile, rs) == AfterFile
      && Count('A', rs) == |d.payerGroups| && Count('C', rs) == |d.payerGroups|
      && Count('B', rs) == PayeesBefore(d.payerGroups, |d.payerGroups|)
      && Count('K', rs) == |d.stateTotals| && Count('T', rs) == 1 && Count('F', rs) == 1
  {
    hide TLayout, FLayout, Render, KindOf, NumberOf, Read, Count, GroupsRecords, StateRecords, RecordCount, Slots, Wire,
      AllClear, PayeesBefore;
    var t, gs, ks, f := [Render(TLayout(d.transmitter))], GroupsRecords(d.payerGroups), StateRecords(d.stateTotals),
      [Render(FLayout(d.endOfFile))];
    SlotsOfWire(d);
    EndsKinds(d);
    ReadOne(BeforeFile, t[0]);
    ReadGroups(d.payerGroups);
    ReadStates(d.stateTotals);
    ReadRun(InStates, 'K', ks);
    ReadFromGap(ks, f[0]);
    ReadConcat(BeforeFile, t, gs);
    ReadConcat(BeforeFile, t + gs, ks);
    ReadConcat(BeforeFile, t + gs + ks, f);
    ReadOne(InStates, f[0]);
  }

  /** The K records and the F record, read after the last group. */
  lemma ReadFromGap(ks: seq<string>, f: string)
    requires (forall r <- ks :: KindOf(r) == 'K') && KindOf(f) == 'F'
    ensures Step(Read(BetweenGroups, ks), 'F') == AfterFile
    ensures Read(Read(BetweenGroups, ks), [f]) == AfterFile
  {
    if ks != [] {
      ReadOne(BetweenGroups, ks[0]);
      assert ks == [ks[0]] + ks[1..];
      ReadConcat(BetweenGroups, [ks[0]], ks[1..]);
      ReadRun(InStates, 'K', ks[1..]);
    }
    ReadOne(Read(BetweenGroups, ks), f);
  }

  // ----- numbering

  ghost predicate GroupUnnumbered(g: PayerGroup) {
    g.payer.sequenceNum == 0 && g.endOfPayer.sequenceNum == 0 && g.endOfPayer.numPayees == 0
    && forall p <- g.payees :: p.sequenceNum == 0
  }

  /** A file as the caller hands it over: every sequence number and count still zero. */
  ghost predicate CountersZero(d: FileData) {
    && d.transmitter.sequenceNum == 0 && d.transmitter.totalPayees == 0
    && d.endOfFile == EndOfFile(0, 0, 0)
    && (forall g <- d.payerGroups :: GroupUnnumbered(g))
    && (forall k <- d.stateTotals :: k.sequenceNum == 0)
  }

  lemma FillKeepsClear(gs: seq<PayerGroup>, year: int)
    requires AllClear(gs)
    ensures AllClear(FillGroups(gs, year))
  {
    hide FormFieldsClear, RecordsBefore;
    forall i | 0 <= i < |gs| ensures GroupClear(FillGroups(gs, year)[i]) {
      assert gs[i] in gs && GroupClear(gs[i]);
      var g := FillGroup(gs[i], 2 + RecordsBefore(gs, i), year);
      assert FillGroups(gs, year)[i] == g;
      forall j | 0 <= j < |g.payees| ensures FormFieldsClear(g.payees[j].formSpecificFields) {
        assert gs[i].payees[j] in gs[i].payees;
      }
    }
  }

  /** Records numbered first, first + 1, ... */
  ghost predicate Consecutive(rs: seq<string>, first: nat) {
    forall i :: 0 <= i < |rs| ==> NumberOf(rs[i]) == (first + i) % Pow10(8)
  }

  lemma ConsecutiveConcat(rs: seq<string>, ss: seq<string>, first: nat)
    requires Consecutive(rs, first) && Consecutive(ss, first + |rs|)
    ensures Consecutive(rs + ss, first)
  {
    hide NumberOf, Pow10;
    forall i | 0 <= i < |rs + ss| ensures NumberOf((rs + ss)[i]) == (first + i) % Pow10(8) {
      if i >= |rs| { assert (rs + ss)[i] == ss[i - |rs|]; }
    }
  }

  lemma GroupNumbered(g: PayerGroup, first: nat, year: int)
    requires GroupClear(g) && GroupUnnumbered(g) && first > 0
    ensures Consecutive(GroupRecords(FillGroup(g, first, year)), first)
  {
    hide GroupRecords, FormFieldsClear, NumberOf, KindOf, Pow10, GroupTotals;
    var r := FillGroup(g, first, year);
    forall j | 0 <= j < |g.payees|
      ensures FormFieldsClear(r.payees[j].formSpecificFields) && r.payees[j].sequenceNum == first + 1 + j
    {
      assert g.payees[j] in g.payees;
    }
    GroupKinds(r);
    forall i | 0 <= i < GroupLen(r) ensures NumberOf(GroupRecords(r)[i]) == (first + i) % Pow10(8) {
      if 1 <= i <= |g.payees| {
        assert KindAndNumber(GroupRecords(r)[1 + (i - 1)], 'B', r.payees[i - 1].sequenceNum);
      }
    }
  }

  lemma NothingNumbered()
    ensures Consecutive(GroupsRecords([]), 2)
  {
  }

  lemma {:induction false} GroupsNumbered(gs: seq<PayerGroup>, year: int, n: nat)
    requires n <= |gs| && AllClear(gs) && forall g <- gs :: GroupUnnumbered(g)
    ensures |GroupsRecords(FillGroups(gs, year)[..n])| == RecordsBefore(gs, n)
    ensures Consecutive(GroupsRecords(FillGroups(gs, year)[..n]), 2)
  {
    hide GroupRecords, GroupsRecords, FillGroup, FillGroups, GroupClear, GroupUnnumbered, Consecutive, RecordsBefore;
    var rs := FillGroups(gs, year);
    GroupsRecordsCount(rs[..n]);
    RecordsBeforePrefix(rs, n, n);
    CountsUnchanged(gs, year, n);
    if n == 0 {
      NothingNumbered();
    } else {
      GroupsNumbered(gs, year, n - 1);
      assert gs[n - 1] in gs;
      FilledAt(gs, year, n - 1);
      GroupNumbered(gs[n - 1], 2 + RecordsBefore(gs, n - 1), year);
      assert rs[..n] == rs[..n - 1] + [rs[n - 1]];
      GroupsRecordsSnoc(rs[..n - 1], rs[n - 1]);
      ConsecutiveConcat(GroupsRecords(rs[..n - 1]), GroupRecords(rs[n - 1]), 2);
    }
  }

  lemma StatesNumbered(ks: seq<StateTotals>, first: nat)
    requires first > 0 && forall k <- ks :: k.sequenceNum == 0
    ensures Consecutive(StateRecords(FillStates(ks, first)), first)
  {
    hide KLayout, Paint, Render, ShowsTotal, ShowsText, ShowsNumber, ShowsMark, KindOf, NumberOf, Pow10;
    var rs := FillStates(ks, first);
    forall i | 0 <= i < |ks| ensures NumberOf(StateRecords(rs)[i]) == (first + i) % Pow10(8) {
      assert ks[i] in ks;
      StateTotalsReadBack(rs[i]);
      RenderedKind(KLayout(rs[i]), 'K', rs[i].sequenceNum);
    }
  }

  lemma OneNumbered(r: string, kind: char, n: nat)
    requires KindAndNumber(r, kind, n)
    ensures Consecutive([r], n)
  {
    hide NumberOf, Pow10;
  }

  /** The n-th record of a freshly marshalled file carries the number n (in its eight columns). */
  lemma FileNumbering(d: FileData)
    requires CountersZero(d) && AllClear(d.payerGroups)
    ensures Consecutive(Slots(Wire(Fill(d))), 1)
  {
    hide TLayout, FLayout, Render, GroupsRecords, StateRecords, FillGroups, FillStates, KindAndNumber, Consecutive,
      Slots, Wire, RecordCount, AllClear, GroupUnnumbered, RecordsBefore, PayeesBefore;
    var gs, f, year := d.payerGroups, Fill(d), d.transmitter.paymentYear;
    SlotsOfWire(f);
    EndsKinds(f);
    OneNumbered(Render(TLayout(f.transmitter)), 'T', 1);
    GroupsNumbered(gs, year, |gs|);
    assert FillGroups(gs, year)[..|gs|] == FillGroups(gs, year);
    StatesNumbered(d.stateTotals, 2 + RecordsBefore(gs, |gs|));
    OneNumbered(Render(FLayout(f.endOfFile)), 'F', 2 + RecordsBefore(gs, |gs|) + |d.stateTotals|);
    var t, rs, ks, e := [Render(TLayout(f.transmitter))], GroupsRecords(f.payerGroups), StateRecords(f.stateTotals),
      [Render(FLayout(f.endOfFile))];
    ConsecutiveConcat(t, rs, 1);
    ConsecutiveConcat(t + rs, ks, 1);
    ConsecutiveConcat(t + rs + ks, e, 1);
  }

  /** A count field reads as the number counted, in its eight columns. */
  ghost predicate ShowsCount(record: string, start: int, end: int, n: nat)
    requires 1 <= start <= end <= |record|
  {
    Value(Columns(record, start, end)) == n % Pow10(end - start + 1)
  }

  lemma NumberIsCount(record: string, start: int, end: int, n: nat)
    requires 1 <= start <= end <= |record| && ShowsNumber(record, start, end, n)
    ensures ShowsCount(record, start, end, n)
  {
  }

  lemma SlotRecord(d: FileData, i: nat, l: Layout)
    requires i < RecordCount(d) && FileRecord(d, i) == Render(l)
    ensures RecordAt(Wire(d), i) == Paint(l)
  {
    hide Wire, FileRecord, Paint, RecordCount;
    WireRecord(d, i);
  }

  lemma FirstOnWire(f: FileData)
    ensures ShowsNumber(RecordAt(Wire(f), 0), 296, 303, f.transmitter.totalPayees)
  {
    hide TLayout, FLayout, Paint, Render, Wire, FileRecord, FileRecords, RecordCount, RecordsBefore, RecordAt,
      ShowsNumber, ShowsText, ShowsDigits, ShowsMark, Upper, BlankFill, AllRecords;
    FilePositions(f);
    SlotRecord(f, 0, TLayout(f.transmitter));
    TransmitterReadsBack(f.transmitter);
  }

  lemma LastOnWire(f: FileData)
    ensures ShowsNumber(RecordAt(Wire(f), RecordCount(f) - 1), 2, 9, f.endOfFile.numPayers)
    ensures ShowsNumber(RecordAt(Wire(f), RecordCount(f) - 1), 22, 29, f.endOfFile.numPayees)
  {
    hide TLayout, FLayout, Paint, Render, Wire, FileRecord, FileRecords, RecordCount, RecordsBefore, RecordAt,
      ShowsNumber, ShowsText, ShowsDigits, ShowsMark, Upper, BlankFill, AllRecords;
    FilePositions(f);
    SlotRecord(f, RecordCount(f) - 1, FLayout(f.endOfFile));
    EndOfFileReadsBack(f.endOfFile);
  }

  lemma FilledCounts(d: FileData)
    requires CountersZero(d)
    ensures var f, gs := Fill(d), d.payerGroups;
      && f.transmitter.totalPayees == f.endOfFile.numPayees == PayeesBefore(gs, |gs|)
      && PayeesBefore(f.payerGroups, |gs|) == PayeesBefore(gs, |gs|)
      && f.endOfFile.numPayers == |f.payerGroups| == |gs|
      && RecordCount(f) == RecordCount(d)
  {
    hide FillGroups, FillStates, RecordsBefore, PayeesBefore;
    CountsUnchanged(d.payerGroups, d.transmitter.paymentYear, |d.payerGroups|);
  }

  /** The counts a freshly marshalled file declares are the counts of the records it holds. */
  lemma FileCounts(d: FileData)
    requires CountersZero(d) && AllClear(d.payerGroups)
    ensures var wire := Wire(Fill(d));
      var rs := Slots(wire);
      && ShowsCount(RecordAt(wire, 0), 296, 303, Count('B', rs))
      && ShowsCount(RecordAt(wire, RecordCount(d) - 1), 2, 9, Count('A', rs))
      && ShowsCount(RecordAt(wire, RecordCount(d) - 1), 22, 29, Count('B', rs))
  {
    hide Slots, Wire, AllClear, CountersZero, PayeesBefore, RecordCount, RecordAt, ShowsCount, ShowsNumber, Count,
      Read, FillGroups, FillStates;
    var f, gs := Fill(d), d.payerGroups;
    var first, last := RecordAt(Wire(f), 0), RecordAt(Wire(f), RecordCount(f) - 1);
    FillKeepsClear(gs, d.transmitter.paymentYear);
    FilledCounts(d);
    FileGrammar(f);
    FirstOnWire(f);
    LastOnWire(f);
    NumberIsCount(first, 296, 303, PayeesBefore(gs, |gs|));
    NumberIsCount(last, 2, 9, |gs|);
    NumberIsCount(last, 22, 29, PayeesBefore(gs, |gs|));
  }

  // ----- marshalling again

  lemma FillGroupTwice(g: PayerGroup, seqNum: int, year: int)
    ensures FillGroup(FillGroup(g, seqNum, year), seqNum, year) == FillGroup(g, seqNum, year)
  {
    hide GroupTotals;
    var r := FillGroup(g, seqNum, year);
    var s := FillGroup(r, seqNum, year);
    assert r.payer == s.payer;
    forall j | 0 <= j < |g.payees| ensures s.payees[j] == r.payees[j] {}
    assert r.endOfPayer == s.endOfPayer;
  }

  /** Marshal's filling is idempotent, so marshalling a filled file again emits the same bytes. */
  lemma FillTwice(d: FileData)
    ensures Fill(Fill(d)) == Fill(d)
    ensures Wire(Fill(Fill(d))) == Wire(Fill(d))
  {
    hide FillGroup, RecordsBefore, PayeesBefore, Wire;
    var f, gs, year := Fill(d), d.payerGroups, d.transmitter.paymentYear;
    forall i | 0 <= i < |gs| ensures FillGroups(f.payerGroups, year)[i] == f.payerGroups[i] {
      CountsUnchanged(gs, year, i);
      FillGroupTwice(gs[i], 2 + RecordsBefore(gs, i), year);
    }
    assert FillGroups(f.payerGroups, year) == f.payerGroups;
    CountsUnchanged(gs, year, |gs|);
    assert FillStates(f.stateTotals, 2 + RecordsBefore(gs, |gs|)) == f.stateTotals;
  }
}
