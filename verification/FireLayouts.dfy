/** The parts of a record that are written in a loop: still well laid, and the same bytes in any order. */
module FireLayouts {
  import opened GoBasics
  import opened Layouts
  import opened FireRecords

  /** What a layout gains from a loop: fields it already had, or fields the loop adds. */
  ghost predicate AmountOf(f: Field, codes: string, amounts: Amounts) {
    exists c :: c in codes && CodeIndex(c) >= 0 && f == AmountField(c, amounts)
  }

  lemma {:induction false} AmountsAdded(l: Layout, codes: string, amounts: Amounts)
    ensures forall f :: f in AddAmounts(l, codes, amounts).Fields() <==> f in l.Fields() || AmountOf(f, codes, amounts)
  {
    if codes != "" {
      var n := |codes| - 1;
      AmountsAdded(l, codes[..n], amounts);
      assert forall c :: c in codes <==> c in codes[..n] || c == codes[n];
    }
  }

  predicate PlainCodes(codes: string) {
    forall c :: c in codes && CodeIndex(c) >= 0 ==> IsPlainCode(c)
  }

  lemma {:induction false} ReachOfBound(l: Layout, bound: int)
    requires bound >= 0 && forall f <- l.Fields() :: f.end <= bound
    ensures l.Reach() <= bound
  {
    if l.Then? {
      assert l.last in l.Fields();
      ReachOfBound(l.before, bound);
    }
  }

  /** New fields to the right of a well-laid layout, compatible with one another, keep it well laid. */
  lemma ExtendsWellLaid(l: Layout, r: Layout, lo: int, hi: int)
    requires l.WellLaid() && l.Reach() < lo <= hi && 0 <= hi
    requires forall f <- r.Fields() :: f in l.Fields() || (f.Fits() && lo <= f.start && f.end <= hi)
    requires forall f <- r.Fields(), g <- r.Fields() :: lo <= f.start && lo <= g.start ==> f.Compatible(g)
    ensures r.WellLaid() && r.Reach() <= hi
  {
    forall f <- l.Fields() ensures f.start <= f.end < lo { l.ReachBounds(f); }
    ReachOfBound(r, hi);
  }

  lemma AmountFieldShape(c: char, amounts: Amounts)
    requires CodeIndex(c) >= 0
    ensures var f := AmountField(c, amounts);
      f.Fits() && f.start == AmountStart(c) && f.end == AmountStart(c) + 11
  {
  }

  lemma AmountsCompatible(f: Field, g: Field, codes: string, amounts: Amounts)
    requires AmountOf(f, codes, amounts) && AmountOf(g, codes, amounts)
    ensures f.Fits() && 55 <= f.start && f.end <= 270 && (PlainCodes(codes) ==> f.end <= 246)
    ensures f.Compatible(g)
  {
    hide AmountField;
    var c :| c in codes && CodeIndex(c) >= 0 && f == AmountField(c, amounts);
    var d :| d in codes && CodeIndex(d) >= 0 && g == AmountField(d, amounts);
    AmountFieldShape(c, amounts);
    AmountFieldShape(d, amounts);
  }

  /** Amounts occupy disjoint columns 55-270, or 55-246 without codes H and I; a repeated code repeats its field. */
  lemma AmountsAreWellLaid(l: Layout, codes: string, amounts: Amounts)
    requires l.WellLaid() && l.Reach() <= 54
    ensures var r := AddAmounts(l, codes, amounts);
      r.WellLaid() && r.Reach() <= 270 && (PlainCodes(codes) ==> r.Reach() <= 246)
  {
    hide AddAmounts, AmountOf, PlainCodes;
    var r := AddAmounts(l, codes, amounts);
    AmountsAdded(l, codes, amounts);
    forall f <- l.Fields() { l.ReachBounds(f); }
    forall f, g | AmountOf(f, codes, amounts) && AmountOf(g, codes, amounts) {
      AmountsCompatible(f, g, codes, amounts);
    }
    ExtendsWellLaid(l, r, 55, 270);
    if PlainCodes(codes) {
      ExtendsWellLaid(l, r, 55, 246);
    }
  }

  ghost predicate TotalOf(f: Field, order: string, totals: Amounts) {
    exists c :: c in order && CodeIndex(c) >= 0 && c in totals && f == TotalField(c, totals)
  }

  lemma {:induction false} TotalsAdded(l: Layout, order: string, totals: Amounts)
    ensures forall f :: f in AddTotals(l, order, totals).Fields() <==> f in l.Fields() || TotalOf(f, order, totals)
  {
    if order != "" {
      var n := |order| - 1;
      TotalsAdded(l, order[..n], totals);
      assert forall c :: c in order <==> c in order[..n] || c == order[n];
    }
  }

  lemma TotalFieldShape(c: char, totals: Amounts)
    requires CodeIndex(c) >= 0
    ensures var f := TotalField(c, totals);
      f.Fits() && f.start == TotalStart(c) && f.end == TotalStart(c) + 17
  {
  }

  lemma TotalsCompatible(f: Field, g: Field, order: string, totals: Amounts)
    requires TotalOf(f, order, totals) && TotalOf(g, order, totals)
    ensures f.Fits() && 16 <= f.start && f.end <= 339 && f.Compatible(g)
  {
    hide TotalField;
    var c :| c in order && CodeIndex(c) >= 0 && c in totals && f == TotalField(c, totals);
    var d :| d in order && CodeIndex(d) >= 0 && d in totals && g == TotalField(d, totals);
    TotalFieldShape(c, totals);
    TotalFieldShape(d, totals);
  }

  /** Totals occupy disjoint columns 16-339. */
  lemma TotalsAreWellLaid(l: Layout, order: string, totals: Amounts)
    requires l.WellLaid() && l.Reach() <= 15
    ensures var r := AddTotals(l, order, totals); r.WellLaid() && r.Reach() <= 339
  {
    hide AddTotals, TotalOf;
    TotalsAdded(l, order, totals);
    forall f <- l.Fields() { l.ReachBounds(f); }
    forall f, g | TotalOf(f, order, totals) && TotalOf(g, order, totals) {
      TotalsCompatible(f, g, order, totals);
    }
    ExtendsWellLaid(l, AddTotals(l, order, totals), 16, 339);
  }

  lemma KnownCodes(c: char)
    ensures CodeIndex(c) >= 0 <==> c in CODES
  {
    if CodeIndex(c) >= 0 {
      assert CODES[CodeIndex(c)] == c;
    }
  }

  /** Whichever way the totals map is walked, the same record comes out. */
  lemma TotalsIgnoreOrder(l: Layout, order: string, totals: Amounts)
    requires l.WellLaid() && l.Reach() <= 15
    requires forall c :: c in order <==> c in totals
    ensures Paint(AddTotals(l, order, totals)) == Paint(AddTotals(l, CODES, totals))
  {
    var r, s := AddTotals(l, order, totals), AddTotals(l, CODES, totals);
    TotalsAreWellLaid(l, order, totals);
    TotalsAreWellLaid(l, CODES, totals);
    TotalsAdded(l, order, totals);
    TotalsAdded(l, CODES, totals);
    forall c: char ensures CodeIndex(c) >= 0 <==> c in CODES { KnownCodes(c); }
    forall f: Field ensures TotalOf(f, order, totals) <==> TotalOf(f, CODES, totals) {}
    PaintIgnoresOrder(r, s);
  }

  lemma CIsWellLaid(c: EndOfPayer)
    ensures CLayout(c).WellLaid()
  {
    TotalsAreWellLaid(CountedHead('C', c.numPayees), CODES, TotalsOf(c));
  }

  lemma KIsWellLaid(k: StateTotals)
    ensures KLayout(k).WellLaid()
  {
    TotalsAreWellLaid(CountedHead('K', k.numPayees), CODES, k.amountTotals);
  }

  lemma BNamedIsWellLaid(p: Payee, codes: string)
    requires PlainCodes(codes)
    ensures BNamed(p, codes).WellLaid() && BNamed(p, codes).Reach() == 545
  {
    AmountsAreWellLaid(BHead(p), codes, p.paymentAmounts);
  }

  // ----- form-specific fields

  /** No two form-specific entries that are written share a column. */
  ghost predicate FormFieldsApart(m: map<int, string>) {
    forall c, d :: c in m && d in m && c < d && IsWritten(c, m[c]) && IsWritten(d, m[d]) ==> c + |m[c]| <= d
  }

  ghost predicate FormFieldOf(f: Field, order: seq<int>, m: map<int, string>) {
    exists c :: c in order && c in m && IsWritten(c, m[c]) && f == FormField(c, m[c])
  }

  lemma {:induction false} FormFieldsAdded(l: Layout, m: map<int, string>, order: seq<int>)
    ensures forall f :: f in AddFormFields(l, m, order).Fields() <==> f in l.Fields() || FormFieldOf(f, order, m)
  {
    if order != [] {
      var n := |order| - 1;
      FormFieldsAdded(l, m, order[..n]);
      assert forall c :: c in order <==> c in order[..n] || c == order[n];
    }
  }

  lemma {:induction false} UncoveredByForm(l: Layout, m: map<int, string>, order: seq<int>, k: nat)
    requires k < RECORD_LEN
    requires forall f :: FormFieldOf(f, order, m) ==> !f.Covers(k)
    ensures Paint(AddFormFields(l, m, order))[k] == Paint(l)[k]
  {
    if order != [] {
      var n := |order| - 1;
      var col := order[n];
      assert forall f :: FormFieldOf(f, order[..n], m) ==> FormFieldOf(f, order, m);
      if col in m && IsWritten(col, m[col]) {
        assert FormFieldOf(FormField(col, m[col]), order, m);
      }
      UncoveredByForm(l, m, order[..n], k);
    }
  }

  /** Is this entry written, and over the byte at index k? */
  predicate EntryCovers(m: map<int, string>, c: int, k: int) {
    c in m && IsWritten(c, m[c]) && FormField(c, m[c]).Covers(k)
  }

  /** Does the state block, which is written last, overwrite the byte at index k? */
  predicate StateCovers(s: StateInfo, k: int) {
    HasStateInfo(s) && (
      || TextField(663, 722, s.specialDataEntries).Covers(k)
      || NumberField(723, 734, s.stateIncomeTaxWithheld).Covers(k)
      || NumberField(735, 746, s.localIncomeTaxWithheld).Covers(k)
      || TextField(747, 748, s.combinedFedStateCode).Covers(k))
  }

  /** Written entries hold the same character wherever they share a column that the state block does not overwrite. */
  ghost predicate FormFieldsAgree(m: map<int, string>, s: StateInfo) {
    forall c, d, k :: EntryCovers(m, c, k) && EntryCovers(m, d, k) && !StateCovers(s, k) ==>
      m[c][k - (c - 1)] == m[d][k - (d - 1)]
  }

  lemma ApartAgree(m: map<int, string>, s: StateInfo)
    requires FormFieldsApart(m)
    ensures FormFieldsAgree(m, s)
  {
  }

  /** Where all written entries that reach a column hold the same character, that character is left there. */
  lemma {:induction false} CoveredByForm(l: Layout, m: map<int, string>, order: seq<int>, c: int, k: nat)
    requires k < RECORD_LEN && c in order && EntryCovers(m, c, k)
    requires forall d :: EntryCovers(m, d, k) ==> m[d][k - (d - 1)] == m[c][k - (c - 1)]
    ensures Paint(AddFormFields(l, m, order))[k] == m[c][k - (c - 1)]
  {
    var n := |order| - 1;
    if !EntryCovers(m, order[n], k) {
      CoveredByForm(l, m, order[..n], c, k);
    }
  }

  lemma WriteAt(l: Layout, f: Field, k: nat) returns (r: Layout)
    requires k < RECORD_LEN
    ensures r == Then(l, f) && Paint(r)[k] == if f.Covers(k) then f.At(k) else Paint(l)[k]
  {
    r := Then(l, f);
  }

  /** The state block leaves the bytes it does not cover. */
  lemma StateLeaves(l: Layout, s: StateInfo, k: nat)
    requires k < RECORD_LEN && !StateCovers(s, k)
    ensures Paint(AddStateInfo(l, s))[k] == Paint(l)[k]
  {
    hide Paint, Layout.Fields, Layout.WellLaid, Layout.Reach, TextField, NumberField;
    if HasStateInfo(s) {
      var r := WriteAt(l, TextField(663, 722, s.specialDataEntries), k);
      r := WriteAt(r, NumberField(723, 734, s.stateIncomeTaxWithheld), k);
      r := WriteAt(r, NumberField(735, 746, s.localIncomeTaxWithheld), k);
      r := WriteAt(r, TextField(747, 748, s.combinedFedStateCode), k);
    }
  }

  /** The bytes the state block covers are its own, whatever was there. */
  lemma StateDecides(l: Layout, l': Layout, s: StateInfo, k: nat)
    requires k < RECORD_LEN && StateCovers(s, k)
    ensures Paint(AddStateInfo(l, s))[k] == Paint(AddStateInfo(l', s))[k]
  {
    hide Paint, Layout.Fields, Layout.WellLaid, Layout.Reach, TextField, NumberField;
    var f, g := TextField(663, 722, s.specialDataEntries), NumberField(723, 734, s.stateIncomeTaxWithheld);
    var h, i := NumberField(735, 746, s.localIncomeTaxWithheld), TextField(747, 748, s.combinedFedStateCode);
    var a := WriteAt(l, f, k);
    var b := WriteAt(l', f, k);
    a := WriteAt(a, g, k);
    b := WriteAt(b, g, k);
    a := WriteAt(a, h, k);
    b := WriteAt(b, h, k);
    a := WriteAt(a, i, k);
    b := WriteAt(b, i, k);
  }

  /** An order that takes every entry that is written. */
  ghost predicate TakesAll(order: seq<int>, m: map<int, string>) {
    forall c :: c in m && IsWritten(c, m[c]) ==> c in order
  }

  /** Entries that agree leave the same B record in any order. */
  lemma BIgnoresFormOrder(p: Payee, codes: string, order: seq<int>, order': seq<int>)
    requires FormFieldsAgree(p.formSpecificFields, p.stateInfo)
    requires TakesAll(order, p.formSpecificFields) && TakesAll(order', p.formSpecificFields)
    ensures Paint(BLayoutInOrder(p, codes, order)) == Paint(BLayoutInOrder(p, codes, order'))
  {
    hide Paint, AddFormFields, AddStateInfo, BNamed, StateCovers, EntryCovers;
    var m, base, s := p.formSpecificFields, BNamed(p, codes), p.stateInfo;
    var l, l' := AddFormFields(base, m, order), AddFormFields(base, m, order');
    forall k | 0 <= k < RECORD_LEN
      ensures Paint(AddStateInfo(l, s))[k] == Paint(AddStateInfo(l', s))[k]
    {
      if StateCovers(s, k) {
        StateDecides(l, l', s, k);
      } else {
        StateLeaves(l, s, k);
        StateLeaves(l', s, k);
        SameEntries(base, p, order, order', k);
      }
    }
  }

  lemma SameEntries(base: Layout, p: Payee, order: seq<int>, order': seq<int>, k: nat)
    requires FormFieldsAgree(p.formSpecificFields, p.stateInfo) && k < RECORD_LEN && !StateCovers(p.stateInfo, k)
    requires TakesAll(order, p.formSpecificFields) && TakesAll(order', p.formSpecificFields)
    ensures Paint(AddFormFields(base, p.formSpecificFields, order))[k] ==
            Paint(AddFormFields(base, p.formSpecificFields, order'))[k]
  {
    hide Paint, AddFormFields, StateCovers, IsWritten;
    var m := p.formSpecificFields;
    if c :| EntryCovers(m, c, k) {
      CoveredByForm(base, m, order, c, k);
      CoveredByForm(base, m, order', c, k);
    } else {
      forall f | FormFieldOf(f, order, m) || FormFieldOf(f, order', m) ensures !f.Covers(k) {
        var c :| c in m && IsWritten(c, m[c]) && f == FormField(c, m[c]);
        assert !EntryCovers(m, c, k);
      }
      UncoveredByForm(base, m, order, k);
      UncoveredByForm(base, m, order', k);
    }
  }

  lemma AllColumnsTakeAll(m: map<int, string>)
    ensures TakesAll(AllColumns(), m)
  {
    forall c | c in m && IsWritten(c, m[c]) ensures c in AllColumns() {
      assert AllColumns()[c - 1] == c;
    }
  }

  /** A map with a key can be walked so that the key comes last. */
  lemma WalkEndingIn(m: map<int, string>, c: int) returns (order: seq<int>)
    requires c in m
    ensures IsWalk(order, m) && order != [] && order[|order| - 1] == c
  {
    order := ListOf(m.Keys - {c});
    order := order + [c];
  }

  lemma ListOf(s: set<int>) returns (order: seq<int>)
    ensures forall c :: c in order <==> c in s
    ensures forall i, j :: 0 <= i < j < |order| ==> order[i] != order[j]
  {
    if s == {} {
      order := [];
    } else {
      var c := SomeMember(s);
      order := ListOf(s - {c});
      order := order + [c];
    }
  }

  /** The entry that is written last decides the column. */
  lemma LastEntryShows(p: Payee, codes: string, order: seq<int>, k: nat)
    requires k < RECORD_LEN && !StateCovers(p.stateInfo, k)
    requires order != [] && EntryCovers(p.formSpecificFields, order[|order| - 1], k)
    ensures var c := order[|order| - 1];
      Paint(BLayoutInOrder(p, codes, order))[k] == p.formSpecificFields[c][k - (c - 1)]
  {
    hide AddStateInfo, StateCovers, BNamed;
    StateLeaves(AddFormFields(BNamed(p, codes), p.formSpecificFields, order), p.stateInfo, k);
  }

  /** Whichever way the form-specific map is walked, the same B record comes out. */
  ghost predicate WalksAgree(p: Payee, codes: string) {
    forall o, o' :: IsWalk(o, p.formSpecificFields) && IsWalk(o', p.formSpecificFields) ==>
      Paint(BLayoutInOrder(p, codes, o)) == Paint(BLayoutInOrder(p, codes, o'))
  }

  /** The B record is independent of the walk exactly when the written entries agree where they overlap. */
  lemma WalksAgreeIff(p: Payee, codes: string)
    ensures WalksAgree(p, codes) <==> FormFieldsAgree(p.formSpecificFields, p.stateInfo)
  {
    hide Paint, BLayoutInOrder, StateCovers, IsWritten;
    var m := p.formSpecificFields;
    if FormFieldsAgree(m, p.stateInfo) {
      forall o, o' | IsWalk(o, m) && IsWalk(o', m)
        ensures Paint(BLayoutInOrder(p, codes, o)) == Paint(BLayoutInOrder(p, codes, o'))
      {
        BIgnoresFormOrder(p, codes, o, o');
      }
    }
    if WalksAgree(p, codes) {
      forall c, d, k | EntryCovers(m, c, k) && EntryCovers(m, d, k) && !StateCovers(p.stateInfo, k)
        ensures m[c][k - (c - 1)] == m[d][k - (d - 1)]
      {
        SharedColumn(p, codes, c, d, k);
      }
    }
  }

  lemma SharedColumn(p: Payee, codes: string, c: int, d: int, k: int)
    requires WalksAgree(p, codes) && !StateCovers(p.stateInfo, k)
    requires EntryCovers(p.formSpecificFields, c, k) && EntryCovers(p.formSpecificFields, d, k)
    ensures p.formSpecificFields[c][k - (c - 1)] == p.formSpecificFields[d][k - (d - 1)]
  {
    hide Paint, BLayoutInOrder, StateCovers, IsWalk;
    var o := WalkEndingIn(p.formSpecificFields, c);
    var o' := WalkEndingIn(p.formSpecificFields, d);
    LastEntryShows(p, codes, o, k);
    LastEntryShows(p, codes, o', k);
  }

  /** Two entries that disagree about column 547: the map's order decides what the record holds. */
  lemma WalkOrderExample(codes: string)
    ensures !WalksAgree(NoPayee().(formSpecificFields := map[546 := "AB", 547 := "C"]), codes)
  {
    hide WalksAgree;
    var p := NoPayee().(formSpecificFields := map[546 := "AB", 547 := "C"]);
    WalksAgreeIff(p, codes);
    assert EntryCovers(p.formSpecificFields, 546, 546) && EntryCovers(p.formSpecificFields, 547, 546);
    assert !StateCovers(p.stateInfo, 546);
  }
}
