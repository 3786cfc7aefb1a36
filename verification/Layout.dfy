/** Column layouts of fixed-width records, and what a reader finds in their columns. */
module Layouts {
  import opened GoBasics
  import opened Decimal

  const RECORD_LEN: nat := 750

  /** A named column range (one-based, inclusive) and the text written at its left edge. */
  datatype Field = Field(start: int, end: int, text: string) {

    /** Does writing this field overwrite the byte at index k? */
    predicate Covers(k: int) {
      start - 1 <= k < start - 1 + |text|
    }

    function At(k: int): char
      requires Covers(k)
    {
      text[k - (start - 1)]
    }

    predicate Fits() {
      1 <= start <= end <= RECORD_LEN && |text| <= end - start + 1
    }

    /** Two fields that cannot disturb each other. */
    predicate Compatible(other: Field) {
      this == other || end < other.start || other.end < start
    }
  }

  function CharField(col: int, c: char): Field {
    Field(col, col, [c])
  }

  /** A mark that is written only when it applies. */
  function MarkField(col: int, on: bool, c: char): Field {
    Field(col, col, if on then [c] else "")
  }

  /** Left-justified text; a range outside the record is dropped as a whole. */
  function TextField(start: int, end: int, s: string): (f: Field)
    ensures f.start == start && f.end == end
    ensures 1 <= start <= end <= RECORD_LEN ==> f.Fits()
  {
    if start < 1 || end > RECORD_LEN || start > end then Field(start, end, "")
    else Field(start, end, if |s| > end - start + 1 then s[..end - start + 1] else s)
  }

  /** Right-justified zero-filled digits. */
  function DigitsField(start: int, end: int, s: string): (f: Field)
    ensures f.start == start && f.end == end
    ensures 1 <= start <= end <= RECORD_LEN ==> f.Fits()
  {
    if start < 1 || end > RECORD_LEN || start > end then Field(start, end, "")
    else Field(start, end, ZeroFill(DigitsOnly(s), end - start + 1))
  }

  function NumberField(start: int, end: int, v: int): Field {
    DigitsField(start, end, Itoa(v))
  }

  lemma NumberFieldShape(start: int, end: int, v: int)
    requires 1 <= start <= end <= RECORD_LEN
    ensures var f := NumberField(start, end, v); f.start == start && f.end == end && f.Fits()
  {
  }

  /** The writes that make up a record, in the order they are made. */
  datatype Layout = Start | Then(before: Layout, last: Field) {

    function Fields(): set<Field> {
      if Start? then {} else before.Fields() + {last}
    }

    /** The rightmost column any field may use. */
    function Reach(): int {
      if Start? then 0 else if before.Reach() > last.end then before.Reach() else last.end
    }

    /** Every field fits its columns, and no two different fields share a column. */
    ghost predicate WellLaid() {
      && (forall f <- Fields() :: f.Fits())
      && (forall f <- Fields(), g <- Fields() :: f.Compatible(g))
    }

    lemma {:induction false} ReachBounds(f: Field)
      requires f in Fields()
      ensures f.end <= Reach()
    {
      if f in before.Fields() {
        before.ReachBounds(f);
      }
    }

    /** One more field; to the right of all the others it keeps the layout well laid. */
    function Add(f: Field): (r: Layout)
      ensures r == Then(this, f)
      ensures r.Fields() == Fields() + {f}
      ensures WellLaid() && Reach() < f.start && f.Fits() ==> r.WellLaid() && r.Reach() == f.end
    {
      forall g <- Fields() { ReachBounds(g); }
      Then(this, f)
    }

    function Char(col: int, c: char): (r: Layout)
      ensures r == Then(this, CharField(col, c))
      ensures r.Fields() == Fields() + {CharField(col, c)}
      ensures WellLaid() && Reach() < col && 1 <= col <= RECORD_LEN ==> r.WellLaid() && r.Reach() == col
    {
      Add(CharField(col, c))
    }

    function Mark(col: int, on: bool, c: char): (r: Layout)
      ensures r == Then(this, MarkField(col, on, c))
      ensures r.Fields() == Fields() + {MarkField(col, on, c)}
      ensures WellLaid() && Reach() < col && 1 <= col <= RECORD_LEN ==> r.WellLaid() && r.Reach() == col
    {
      Add(MarkField(col, on, c))
    }

    function Text(start: int, end: int, s: string): (r: Layout)
      ensures r == Then(this, TextField(start, end, s))
      ensures r.Fields() == Fields() + {TextField(start, end, s)}
      ensures WellLaid() && Reach() < start && 1 <= start <= end <= RECORD_LEN ==> r.WellLaid() && r.Reach() == end
    {
      Add(TextField(start, end, s))
    }

    function Digits(start: int, end: int, s: string): (r: Layout)
      ensures r == Then(this, DigitsField(start, end, s))
      ensures r.Fields() == Fields() + {DigitsField(start, end, s)}
      ensures WellLaid() && Reach() < start && 1 <= start <= end <= RECORD_LEN ==> r.WellLaid() && r.Reach() == end
    {
      Add(DigitsField(start, end, s))
    }

    function Number(start: int, end: int, v: int): (r: Layout)
      ensures r == Then(this, NumberField(start, end, v))
      ensures r.Fields() == Fields() + {NumberField(start, end, v)}
      ensures WellLaid() && Reach() < start && 1 <= start <= end <= RECORD_LEN ==> r.WellLaid() && r.Reach() == end
    {
      Add(NumberField(start, end, v))
    }
  }

  /** The buffer after one field has been written over it. */
  function PaintOne(b: string, f: Field): (r: string)
    ensures |r| == |b|
  {
    seq(|b|, k requires 0 <= k < |b| => if f.Covers(k) then f.At(k) else b[k])
  }

  /** The record a layout leaves: its fields written over blanks, first to last. */
  function Paint(l: Layout): (r: string)
    ensures |r| == RECORD_LEN
  {
    match l
    case Start => Repeat(' ', RECORD_LEN)
    case Then(before, f) => PaintOne(Paint(before), f)
  }

  /** The columns of a range, as a reader sees them. */
  function Columns(record: string, start: int, end: int): (s: string)
    requires 1 <= start <= end + 1 <= |record| + 1
  {
    record[start - 1..end]
  }

  /** Exactly w characters of s: cut on the right, or filled with blanks. */
  function BlankFill(s: string, w: nat): (r: string)
    ensures |r| == w
  {
    if |s| > w then s[..w] else s + Repeat(' ', w - |s|)
  }

  // ----- what a column of the finished record shows

  lemma {:induction false} UncoveredColumn(l: Layout, k: nat)
    requires k < RECORD_LEN
    requires forall f <- l.Fields() :: !f.Covers(k)
    ensures Paint(l)[k] == ' '
  {
    if l.Then? {
      assert l.last in l.Fields();
      UncoveredColumn(l.before, k);
    }
  }

  /** In a well-laid record the order of writing does not matter: a covered column shows its field. */
  lemma {:induction false} CoveredColumn(l: Layout, f: Field, k: nat)
    requires l.WellLaid() && f in l.Fields() && k < RECORD_LEN && f.Covers(k)
    ensures Paint(l)[k] == f.At(k)
  {
    assert l.last in l.Fields();
    if l.last.Covers(k) {
      assert f.Compatible(l.last);
    } else {
      CoveredColumn(l.before, f, k);
    }
  }

  /** Two well-laid records that write the same fields, in whatever order, are the same bytes. */
  lemma PaintIgnoresOrder(l: Layout, m: Layout)
    requires l.WellLaid() && m.WellLaid() && l.Fields() == m.Fields()
    ensures Paint(l) == Paint(m)
  {
    forall k | 0 <= k < RECORD_LEN
      ensures Paint(l)[k] == Paint(m)[k]
    {
      if f :| f in l.Fields() && f.Covers(k) {
        CoveredColumn(l, f, k);
        CoveredColumn(m, f, k);
      } else {
        UncoveredColumn(l, k);
        UncoveredColumn(m, k);
      }
    }
  }

  /** Field isolation: every field of a well-laid record reads back as its own text, blank-filled. */
  lemma FieldReadsBack(l: Layout, f: Field)
    requires l.WellLaid() && f in l.Fields()
    ensures f.Fits()
    ensures Columns(Paint(l), f.start, f.end) == BlankFill(f.text, f.end - f.start + 1)
  {
    var w := f.end - f.start + 1;
    forall c | 0 <= c < w
      ensures Columns(Paint(l), f.start, f.end)[c] == BlankFill(f.text, w)[c]
    {
      var k := f.start - 1 + c;
      if f.Covers(k) {
        CoveredColumn(l, f, k);
      } else {
        forall g <- l.Fields() ensures !g.Covers(k) {
          assert g.Compatible(f);
        }
        UncoveredColumn(l, k);
      }
    }
  }

  // ----- what a reader of one field gets

  /** A numeric field of w columns holds w digits that read as |v| mod 10^w. */
  lemma NumberReadsBack(l: Layout, start: int, end: int, v: int)
    requires l.WellLaid() && NumberField(start, end, v) in l.Fields()
    requires 1 <= start <= end <= RECORD_LEN
    ensures ShowsNumber(Paint(l), start, end, v)
  {
    var z := ZeroFill(DigitsOnly(Itoa(v)), end - start + 1);
    FieldReadsBack(l, NumberField(start, end, v));
    assert Columns(Paint(l), start, end) == z;
    PrintedNumberReadsBack(v, end - start + 1);
  }

  lemma TextReadsBack(l: Layout, start: int, end: int, s: string)
    requires l.WellLaid() && TextField(start, end, s) in l.Fields()
    requires 1 <= start <= end <= RECORD_LEN
    ensures ShowsText(Paint(l), start, end, s)
  {
    FieldReadsBack(l, TextField(start, end, s));
  }

  lemma DigitsReadBack(l: Layout, start: int, end: int, s: string)
    requires l.WellLaid() && DigitsField(start, end, s) in l.Fields()
    requires 1 <= start <= end <= RECORD_LEN
    ensures ShowsDigits(Paint(l), start, end, s)
  {
    FieldReadsBack(l, DigitsField(start, end, s));
  }

  lemma MarkReadsBack(l: Layout, col: int, on: bool, c: char)
    requires l.WellLaid() && MarkField(col, on, c) in l.Fields()
    requires 1 <= col <= RECORD_LEN
    ensures ShowsMark(Paint(l), col, on, c)
  {
    FieldReadsBack(l, MarkField(col, on, c));
    assert Columns(Paint(l), col, col)[0] == Paint(l)[col - 1];
  }

  /** The columns hold exactly their width in digits, the low digits of |v|. */
  ghost predicate ShowsNumber(record: string, start: int, end: int, v: int)
    requires 1 <= start <= end <= |record|
  {
    var s := Columns(record, start, end);
    AllDigits(s) && Value(s) == Abs(v) % Pow10(end - start + 1)
  }

  /** The columns hold the text, cut to the width or filled with blanks. */
  ghost predicate ShowsText(record: string, start: int, end: int, s: string)
    requires 1 <= start <= end <= |record|
  {
    Columns(record, start, end) == BlankFill(s, end - start + 1)
  }

  /** The columns hold the digits of s, cut on the left or zero-filled. */
  ghost predicate ShowsDigits(record: string, start: int, end: int, s: string)
    requires 1 <= start <= end <= |record|
  {
    Columns(record, start, end) == ZeroFill(DigitsOnly(s), end - start + 1)
  }

  /** The column holds the mark when it applies and a blank otherwise. */
  ghost predicate ShowsMark(record: string, col: int, on: bool, c: char)
    requires 1 <= col <= |record|
  {
    record[col - 1] == if on then c else ' '
  }
}
