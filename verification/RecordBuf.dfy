/** The 750-byte record buffer, overwritten in place by column. */
module RecordBuffer {
  import opened GoBasics
  import opened Decimal
  import opened Layouts

  function UpperChar(c: char): char {
    if 'a' <= c <= 'z' then (c as int - 'a' as int + 'A' as int) as char else c
  }

  function Upper(s: string): (r: string)
    ensures |r| == |s|
  {
    seq(|s|, i requires 0 <= i < |s| => UpperChar(s[i]))
  }

  predicate IsAlnum(c: char) {
    'A' <= c <= 'Z' || 'a' <= c <= 'z' || IsDigit(c)
  }

  function AlnumOnly(s: string): string {
    if s == "" then ""
    else AlnumOnly(s[..|s| - 1]) + (if IsAlnum(s[|s| - 1]) then [s[|s| - 1]] else "")
  }

  lemma UpperIs(s: string)
    ensures forall i :: 0 <= i < |s| ==>
      Upper(s)[i] == if 'a' <= s[i] <= 'z' then (s[i] as int - 32) as char else s[i]
  {
  }

  /** What is kept of a string is exactly its letters and digits, in their order. */
  lemma {:induction false} AlnumKept(s: string) returns (places: seq<nat>)
    ensures |places| == |AlnumOnly(s)|
    ensures forall i :: 0 <= i < |places| ==> places[i] < |s| && AlnumOnly(s)[i] == s[places[i]]
    ensures forall i, j :: 0 <= i < j < |places| ==> places[i] < places[j]
    ensures forall k :: 0 <= k < |s| ==>
      (k in places <==> 'A' <= s[k] <= 'Z' || 'a' <= s[k] <= 'z' || '0' <= s[k] <= '9')
  {
    if s == "" {
      places := [];
    } else {
      var n := |s| - 1;
      places := AlnumKept(s[..n]);
      assert IsAlnum(s[n]) <==> 'A' <= s[n] <= 'Z' || 'a' <= s[n] <= 'z' || '0' <= s[n] <= '9';
      hide IsAlnum;
      if IsAlnum(s[n]) {
        places := places + [n];
      }
    }
  }

  lemma KeepSnoc(s: string, i: nat)
    requires i < |s|
    ensures DigitsOnly(s[..i + 1]) == DigitsOnly(s[..i]) + (if IsDigit(s[i]) then [s[i]] else "")
    ensures AlnumOnly(s[..i + 1]) == AlnumOnly(s[..i]) + (if IsAlnum(s[i]) then [s[i]] else "")
  {
    assert s[..i + 1][..i] == s[..i];
  }

  /** Writing two adjacent pieces is writing their concatenation. */
  lemma PaintHalves(b: string, start: int, left: string, right: string)
    ensures var mid, end := start + |left|, start + |left| + |right| - 1;
      PaintOne(PaintOne(b, Field(start, mid - 1, left)), Field(mid, end, right))
      == PaintOne(b, Field(start, end, left + right))
  {
  }

  method StripNonDigits(s: string) returns (digits: string)
    ensures digits == DigitsOnly(s)
  {
    digits := "";
    for i := 0 to |s|
      invariant digits == DigitsOnly(s[..i])
    {
      KeepSnoc(s, i);
      if '0' <= s[i] <= '9' {
        digits := digits + [s[i]];
      }
    }
    assert s[..|s|] == s;
  }

  class RecordBuf {
    const buf: array<char>
    /** The writes so far, in order. */
    ghost var layout: Layout

    /** The buffer is the blank record with exactly the writes so far painted over it. */
    ghost predicate Valid()
      reads this, buf
    {
      buf.Length == RECORD_LEN && buf[..] == Paint(layout)
    }

    constructor ()
      ensures Valid() && fresh(buf) && layout == Start
    {
      buf := new char[RECORD_LEN](_ => ' ');
      layout := Start;
      new;
      assert buf[..] == Repeat(' ', RECORD_LEN);
    }

    /** Records one write in the history, once the bytes have been stored. */
    ghost method Wrote(f: Field, before: string)
      requires buf.Length == RECORD_LEN && before == Paint(layout)
      requires buf[..] == PaintOne(before, f)
      modifies this`layout
      ensures Valid() && layout == Then(old(layout), f)
    {
      layout := Then(layout, f);
    }

    /** Replaces the history by another that leaves the same bytes. */
    ghost method Restate(l: Layout)
      requires Valid() && Paint(l) == Paint(layout)
      modifies this`layout
      ensures Valid() && layout == l
    {
      layout := l;
    }

    method PutChar(col: int, c: char)
      requires Valid()
      modifies this`layout, buf
      ensures Valid() && layout == Then(old(layout), CharField(col, c))
    {
      ghost var before := buf[..];
      var idx := col - 1;
      if 0 <= idx < buf.Length {
        buf[idx] := c;
      }
      assert buf[..] == PaintOne(before, CharField(col, c));
      Wrote(CharField(col, c), before);
    }

    /** The guarded form of PutChar. */
    method PutBoolMark(col: int, v: bool, mark: char)
      requires Valid()
      modifies this`layout, buf
      ensures Valid() && layout == Then(old(layout), MarkField(col, v, mark))
    {
      ghost var before := buf[..];
      if v {
        PutChar(col, mark);
      } else {
        assert buf[..] == PaintOne(before, MarkField(col, v, mark));
        Wrote(MarkField(col, v, mark), before);
      }
    }

    /** Overwrites the bytes from index a on with a text that fits there. */
    method Store(a: nat, text: string)
      requires a + |text| <= buf.Length
      modifies buf
      ensures buf[..] == PaintOne(old(buf[..]), Field(a + 1, a + |text|, text))
    {
      ghost var before := buf[..];
      forall k | 0 <= k < |text| {
        buf[a + k] := text[k];
      }
      assert buf[..] == PaintOne(before, Field(a + 1, a + |text|, text));
    }

    method PutString(start: int, end: int, s: string)
      requires Valid()
      modifies this`layout, buf
      ensures Valid() && layout == Then(old(layout), TextField(start, end, s))
    {
      ghost var before, f := buf[..], TextField(start, end, s);
      var a, b := start - 1, end;
      if 0 <= a < b <= buf.Length {
        var width := b - a;
        Store(a, if |s| > width then s[..width] else s);
      }
      assert buf[..] == PaintOne(before, f);
      Wrote(f, before);
    }

    method PutUpper(start: int, end: int, s: string)
      requires Valid()
      modifies this`layout, buf
      ensures Valid() && layout == Then(old(layout), TextField(start, end, Upper(s)))
    {
      PutString(start, end, Upper(s));
    }

    method PutAlnum(start: int, end: int, s: string)
      requires Valid()
      modifies this`layout, buf
      ensures Valid() && layout == Then(old(layout), TextField(start, end, Upper(AlnumOnly(s))))
    {
      var kept := "";
      for i := 0 to |s|
        invariant kept == AlnumOnly(s[..i])
        invariant Valid() && layout == old(layout)
      {
        KeepSnoc(s, i);
        if IsAlnum(s[i]) {
          kept := kept + [s[i]];
        }
      }
      assert s[..|s|] == s;
      PutUpper(start, end, kept);
    }

    /** Writes '0' at the n indices from a on. */
    method StoreZeros(a: nat, n: nat)
      requires a + n <= buf.Length
      modifies buf
      ensures buf[..] == PaintOne(old(buf[..]), Field(a + 1, a + n, Repeat('0', n)))
    {
      ghost var before := buf[..];
      for i := a to a + n
        invariant buf[..] == PaintOne(before, Field(a + 1, i, Repeat('0', i - a)))
      {
        buf[i] := '0';
        assert buf[..] == PaintOne(before, Field(a + 1, i + 1, Repeat('0', i + 1 - a)));
      }
    }

    method PutDigits(start: int, end: int, s: string)
      requires Valid()
      modifies this`layout, buf
      ensures Valid() && layout == Then(old(layout), DigitsField(start, end, s))
    {
      hide Paint, DigitsOnly;
      ghost var before, f := buf[..], DigitsField(start, end, s);
      var a, b := start - 1, end;
      if 0 <= a < b <= buf.Length {
        var width := b - a;
        var digits := StripNonDigits(s);
        if |digits| > width {
          digits := digits[|digits| - width..];
        }
        var pad := width - |digits|;
        StoreZeros(a, pad);
        Store(a + pad, digits);
        PaintHalves(before, start, Repeat('0', pad), digits);
        assert f.text == Repeat('0', pad) + digits;
      }
      Wrote(f, before);
    }

    method PutIntZeroPad(start: int, end: int, v: int)
      requires Valid()
      modifies this`layout, buf
      ensures Valid() && layout == Then(old(layout), NumberField(start, end, v))
    {
      PutDigits(start, end, Itoa(v));
    }

    method PutCents(start: int, end: int, cents: int64)
      requires Valid()
      modifies this`layout, buf
      ensures Valid() && layout == Then(old(layout), NumberField(start, end, cents))
    {
      PutDigits(start, end, Itoa(cents));
    }

    method Bytes() returns (out: string)
      requires Valid()
      ensures out == Paint(layout) + "\r\n"
    {
      out := buf[..] + "\r\n";
    }
  }
}
