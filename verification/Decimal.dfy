/** Decimal text: what strconv prints, what the numeric fields keep of it, and how to read it back. */
module Decimal {
  import opened GoBasics

  predicate IsDigit(c: char) {
    '0' <= c <= '9'
  }

  predicate AllDigits(s: string) {
    forall i :: 0 <= i < |s| ==> IsDigit(s[i])
  }

  function Pow10(w: nat): (p: nat)
    ensures p >= 1
  {
    if w == 0 then 1 else 10 * Pow10(w - 1)
  }

  function DigitChar(d: nat): (c: char)
    requires d < 10
    ensures IsDigit(c)
  {
    ('0' as int + d) as char
  }

  function DigitValue(c: char): (d: nat)
    ensures d < 10
  {
    if IsDigit(c) then c as int - '0' as int else 0
  }

  /** strconv's digits of a natural number: no leading zero except "0" itself. */
  function Digits(n: nat): (s: string)
    ensures AllDigits(s)
  {
    if n < 10 then [DigitChar(n)] else Digits(n / 10) + [DigitChar(n % 10)]
  }

  /** strconv.Itoa and strconv.FormatInt(_, 10). */
  function Itoa(v: int): string {
    if v < 0 then "-" + Digits(-v) else Digits(v)
  }

  /** The digits of a string, in order: what stripNonDigits keeps. */
  function DigitsOnly(s: string): (d: string)
    ensures AllDigits(d)
  {
    if s == "" then ""
    else DigitsOnly(s[..|s| - 1]) + (if IsDigit(s[|s| - 1]) then [s[|s| - 1]] else "")
  }

  /** Reads a numeric field; a column that holds no digit counts as zero. */
  function Value(s: string): nat {
    if s == "" then 0 else 10 * Value(s[..|s| - 1]) + DigitValue(s[|s| - 1])
  }

  function Repeat(c: char, n: nat): (s: string)
    ensures |s| == n
    ensures forall i :: 0 <= i < n ==> s[i] == c
  {
    seq(n, _ => c)
  }

  /** The last w digits of a digit string, zero-filled on the left. */
  function ZeroFill(digits: string, w: nat): (s: string)
    ensures |s| == w
  {
    if |digits| > w then digits[|digits| - w..] else Repeat('0', w - |digits|) + digits
  }

  // ----- reading back what was printed

  /** Value, one digit at a time from the right. */
  lemma ValueSnoc(a: string, c: char)
    ensures Value(a + [c]) == 10 * Value(a) + DigitValue(c)
  {
    assert (a + [c])[..|a + [c]| - 1] == a;
  }

  lemma ScaleBy10(a: nat, p: nat, b: nat, c: nat)
    ensures 10 * (a * p + b) + c == a * (10 * p) + (10 * b + c)
  {
    assert a * (10 * p) == 10 * (a * p);
  }

  lemma {:induction false} ValueConcat(a: string, b: string)
    ensures Value(a + b) == Value(a) * Pow10(|b|) + Value(b)
  {
    if b == "" {
      assert a + b == a;
    } else {
      var b', c := b[..|b| - 1], b[|b| - 1];
      assert a + b == (a + b') + [c];
      ValueSnoc(a + b', c);
      ValueConcat(a, b');
      ScaleBy10(Value(a), Pow10(|b'|), Value(b'), DigitValue(c));
    }
  }

  lemma {:induction false} ValueBound(s: string)
    ensures Value(s) < Pow10(|s|)
  {
    if s != "" {
      ValueBound(s[..|s| - 1]);
    }
  }

  lemma {:induction false} ValueOfDigits(n: nat)
    ensures Value(Digits(n)) == n
  {
    var last := DigitChar(n % 10);
    assert DigitValue(last) == n % 10;
    if n < 10 {
      assert Digits(n) == "" + [last];
      ValueSnoc("", last);
    } else {
      assert Digits(n) == Digits(n / 10) + [last];
      ValueOfDigits(n / 10);
      ValueSnoc(Digits(n / 10), last);
    }
  }

  lemma {:induction false} ValueOfZeros(n: nat)
    ensures Value(Repeat('0', n)) == 0
  {
    if n > 0 {
      assert Repeat('0', n)[..n - 1] == Repeat('0', n - 1);
      ValueOfZeros(n - 1);
    }
  }

  lemma {:induction false} ValueOfBlanks(n: nat)
    ensures Value(Repeat(' ', n)) == 0
  {
    if n > 0 {
      assert Repeat(' ', n)[..n - 1] == Repeat(' ', n - 1);
      ValueOfBlanks(n - 1);
    }
  }

  lemma DigitsOnlySnoc(s: string, c: char)
    ensures DigitsOnly(s + [c]) == DigitsOnly(s) + (if IsDigit(c) then [c] else "")
  {
    assert (s + [c])[..|s + [c]| - 1] == s;
  }

  lemma {:induction false} DigitsOnlyOfDigits(s: string)
    requires AllDigits(s)
    ensures DigitsOnly(s) == s
  {
    hide DigitsOnly;
    if s == "" {
      DigitsOnlyBase();
    } else {
      var t, c := s[..|s| - 1], s[|s| - 1];
      DigitsOnlyOfDigits(t);
      assert s == t + [c];
      DigitsOnlySnoc(t, c);
    }
  }

  lemma DigitsOnlyBase()
    ensures DigitsOnly("") == "" && DigitsOnly("-") == ""
  {
    assert "-"[..0] == "";
  }

  lemma {:induction false} DigitsOnlyOfSigned(s: string)
    requires AllDigits(s)
    ensures DigitsOnly("-" + s) == s
  {
    hide DigitsOnly;
    DigitsOnlyBase();
    if s == "" {
      assert "-" + s == "-";
    } else {
      var t, c := s[..|s| - 1], s[|s| - 1];
      DigitsOnlyOfSigned(t);
      assert "-" + s == ("-" + t) + [c];
      DigitsOnlySnoc("-" + t, c);
    }
  }

  lemma {:induction false} RemainderIsUnique(q: nat, r: nat, m: nat)
    requires r < m
    ensures (q * m + r) % m == r
  {
    if q > 0 {
      RemainderIsUnique(q - 1, r, m);
      assert q * m + r == (q - 1) * m + r + m;
      AddModulus((q - 1) * m + r, m);
    }
  }

  lemma AddModulus(n: nat, m: nat)
    requires m > 0
    ensures (n + m) % m == n % m
  {
    var a, b := n / m, (n + m) / m;
    assert m * a + n % m + m == m * b + (n + m) % m;
    assert m * (b - a - 1) == n % m - (n + m) % m;
    SmallMultipleIsZero(b - a - 1, m);
  }

  lemma SmallMultipleIsZero(k: int, m: nat)
    requires -(m as int) < m * k < m
    ensures k == 0
  {
  }

  /** Dropping high digits and filling with zeros keeps the number modulo 10^w. */
  lemma ZeroFillKeepsLowDigits(digits: string, w: nat)
    requires AllDigits(digits)
    ensures AllDigits(ZeroFill(digits, w))
    ensures Value(ZeroFill(digits, w)) == Value(digits) % Pow10(w)
  {
    var z := ZeroFill(digits, w);
    ValueBound(z);
    if |digits| > w {
      var high := digits[..|digits| - w];
      assert digits == high + z;
      ValueConcat(high, z);
      RemainderIsUnique(Value(high), Value(z), Pow10(w));
    } else {
      ValueConcat(Repeat('0', w - |digits|), digits);
      ValueOfZeros(w - |digits|);
      RemainderIsUnique(0, Value(z), Pow10(w));
    }
  }

  /** A printed integer of either sign, put through a w-column numeric field, reads back as |v| mod 10^w. */
  lemma PrintedNumberReadsBack(v: int, w: nat)
    ensures var z := ZeroFill(DigitsOnly(Itoa(v)), w);
      |z| == w && AllDigits(z) && Value(z) == Abs(v) % Pow10(w)
  {
    if v < 0 {
      DigitsOnlyOfSigned(Digits(-v));
    } else {
      DigitsOnlyOfDigits(Digits(v));
    }
    ValueOfDigits(Abs(v));
    ZeroFillKeepsLowDigits(Digits(Abs(v)), w);
  }

  lemma PrintedDigits()
    ensures Digits(1402) == "1402" && Digits(35) == "35"
  {
    assert Digits(3) == "3";
    assert Digits(14) == "14" && Digits(140) == "140";
  }

  lemma ReadDigits()
    ensures Value("0035") == 35
  {
    assert "0035" == "003" + ['5'] && "003" == "00" + ['3'] && "00" == "0" + ['0'] && "0" == "" + ['0'];
    ValueSnoc("", '0');
    ValueSnoc("0", '0');
    ValueSnoc("00", '3');
    ValueSnoc("003", '5');
  }

  /** The digits stand most significant first, a sign is dropped, and what does not fit is cut on the left. */
  lemma PrintedExample()
    ensures Itoa(1402) == "1402" && Itoa(-35) == "-35"
    ensures ZeroFill(DigitsOnly(Itoa(-35)), 4) == "0035" && ZeroFill(DigitsOnly(Itoa(1402)), 3) == "402"
    ensures Value("0035") == 35
  {
    hide Digits, Value, DigitsOnly;
    PrintedDigits();
    ReadDigits();
    DigitsOnlyOfSigned("35");
    DigitsOnlyOfDigits("1402");
    assert Repeat('0', 2) == "00";
  }

  /** What is kept of a string is exactly its digits, in their order: the kept ones stand at increasing places, and
        every digit has one. */
  lemma {:induction false} DigitsKept(s: string) returns (places: seq<nat>)
    ensures |places| == |DigitsOnly(s)|
    ensures forall i :: 0 <= i < |places| ==> places[i] < |s| && DigitsOnly(s)[i] == s[places[i]]
    ensures forall i, j :: 0 <= i < j < |places| ==> places[i] < places[j]
    ensures forall k :: 0 <= k < |s| ==> (k in places <==> '0' <= s[k] <= '9')
  {
    hide DigitsOnly;
    DigitsOnlyBase();
    if s == "" {
      places := [];
    } else {
      var n := |s| - 1;
      places := DigitsKept(s[..n]);
      assert s == s[..n] + [s[n]];
      DigitsOnlySnoc(s[..n], s[n]);
      if '0' <= s[n] <= '9' {
        places := places + [n];
      }
    }
  }
}
