/** The hand-written base64 encoder, against RFC 4648 section 4: the input's bits regrouped in sixes. */
module Base64 {
  import opened GoBasics
  import opened Arithmetic

  type byte = x: int | 0 <= x < 256

  type bit = x: int | 0 <= x <= 1

  const UPPER: string := "ABCDEFGHIJKLMNOPQRSTUVWXYZ"
  const LOWER: string := "abcdefghijklmnopqrstuvwxyz"
  const DIGITS: string := "0123456789+/"
  const TABLE: string := UPPER + LOWER + DIGITS

  // ----- the alphabet

  /** The value of an alphabet character, 64 for any other. */
  function Value(c: char): (v: nat)
    ensures v <= 64
  {
    if 'A' <= c <= 'Z' then c as int - 'A' as int
    else if 'a' <= c <= 'z' then c as int - 'a' as int + 26
    else if '0' <= c <= '9' then c as int - '0' as int + 52
    else if c == '+' then 62
    else if c == '/' then 63
    else 64
  }

  lemma Letters()
    ensures |UPPER| == |LOWER| == 26
    ensures forall v :: 0 <= v < 26 ==> Value(UPPER[v]) == v && Value(LOWER[v]) == 26 + v
  {
  }

  lemma Digits()
    ensures |DIGITS| == 12 && forall v :: 0 <= v < 12 ==> Value(DIGITS[v]) == 52 + v
  {
  }

  /** The encoder's table lists the alphabet in order of value. */
  lemma TableIsTheAlphabet()
    ensures |TABLE| == 64
    ensures forall v :: 0 <= v < 64 ==> Value(TABLE[v]) == v
  {
    hide Value;
    Letters();
    Digits();
  }

  /** The character of a value. */
  function Letter(v: nat): (c: char)
    requires v < 64
    ensures Value(c) == v
  {
    TableIsTheAlphabet();
    TABLE[v]
  }

  lemma LetterOfValue(c: char)
    requires Value(c) < 64
    ensures Letter(Value(c)) == c
  {
    hide Letter;
    var d := Letter(Value(c));
    assert Value(d) == Value(c);
  }

  lemma NoPaddingLetter(v: nat)
    requires v < 64
    ensures Letter(v) != '='
  {
    hide Letter;
    assert Value('=') == 64;
  }

  // ----- numbers in binary

  /** The bit of weight 2^p. */
  function Bit(v: nat, p: nat): bit {
    if p == 0 then v % 2 else Bit(v / 2, p - 1)
  }

  /** The number a bit string denotes, most significant bit first. */
  function Number(bits: seq<bit>): nat {
    if bits == [] then 0 else 2 * Number(bits[..|bits| - 1]) + bits[|bits| - 1]
  }

  lemma {:induction false} NumberFits(bits: seq<bit>)
    ensures Number(bits) < Pow2(|bits|)
  {
    if bits != [] {
      NumberFits(bits[..|bits| - 1]);
    }
  }

  /** A number's bits are the ones it was put together from. */
  lemma {:induction false} BitOfNumber(bits: seq<bit>, p: nat)
    requires p < |bits|
    ensures Bit(Number(bits), p) == bits[|bits| - 1 - p]
  {
    var n := |bits| - 1;
    assert Number(bits) / 2 == Number(bits[..n]) && Number(bits) % 2 == bits[n];
    if p > 0 {
      BitOfNumber(bits[..n], p - 1);
    }
  }

  /** A number below 2^w is put together from its w bits. */
  lemma {:induction false} NumberOfBits(v: nat, bits: seq<bit>)
    requires v < Pow2(|bits|) && forall p :: 0 <= p < |bits| ==> bits[|bits| - 1 - p] == Bit(v, p)
    ensures Number(bits) == v
  {
    if bits != [] {
      var n := |bits| - 1;
      forall p | 0 <= p < n ensures bits[..n][n - 1 - p] == Bit(v / 2, p) {
        assert bits[n - (p + 1)] == Bit(v, p + 1);
      }
      NumberOfBits(v / 2, bits[..n]);
      assert bits[n - 0] == Bit(v, 0);
    }
  }

  lemma {:induction false} NumberConcat(a: seq<bit>, b: seq<bit>)
    ensures Number(a + b) == Number(a) * Pow2(|b|) + Number(b)
  {
    if b == [] {
      assert a + b == a;
    } else {
      var n := |b| - 1;
      NumberConcat(a, b[..n]);
      assert (a + b)[..|a + b| - 1] == a + b[..n];
      assert 2 * (Number(a) * Pow2(n)) == Number(a) * (2 * Pow2(n));
    }
  }

  // ----- bit strings of inputs and texts

  /** The i-th bit of the input, most significant first; zero past its end. */
  function InputBit(b: seq<byte>, i: nat): bit {
    if i / 8 < |b| then Bit(b[i / 8], 7 - i % 8) else 0
  }

  /** The i-th bit an encoded text carries, six to a character. */
  function TextBit(s: string, i: nat): bit {
    if i / 6 < |s| then Bit(Value(s[i / 6]), 5 - i % 6) else 0
  }

  function InputBits(b: seq<byte>, from: nat, n: nat): (bits: seq<bit>)
    ensures |bits| == n
  {
    seq<bit>(n, (j: nat) => InputBit(b, from + j))
  }

  function TextBits(s: string, from: nat, n: nat): (bits: seq<bit>)
    ensures |bits| == n
  {
    seq<bit>(n, (j: nat) => TextBit(s, from + j))
  }

  /** The k-th six bits of the input. */
  function Sextet(b: seq<byte>, k: nat): (v: nat)
    ensures v < 64
  {
    var v := Number(InputBits(b, 6 * k, 6));
    assert v < 64 by { NumberFits(InputBits(b, 6 * k, 6)); SmallPowers(); }
    v
  }

  /** The m-th eight bits of a text. */
  function Octet(s: string, m: nat): byte {
    var v := Number(TextBits(s, 8 * m, 8));
    assert v < 256 by { NumberFits(TextBits(s, 8 * m, 8)); SmallPowers(); }
    v
  }

  lemma SmallPowers()
    ensures Pow2(6) == 64 && Pow2(8) == 256
  {
    assert Pow2(3) == 8;
    assert Pow2(6) == 64;
  }

  // ----- what encoding means

  function EncodedLength(n: nat): nat {
    (n + 2) / 3 * 4
  }

  /** The k-th character: the k-th six bits of the input, or padding once the input has none left. */
  function Symbol(b: seq<byte>, k: nat): char {
    if 6 * k < 8 * |b| then Letter(Sextet(b, k)) else '='
  }

  function Encode(b: seq<byte>): (s: string)
    ensures |s| == EncodedLength(|b|)
  {
    seq(EncodedLength(|b|), (k: nat) => Symbol(b, k))
  }

  // ----- the encoder

  function ByteAt(b: seq<byte>, i: nat): byte {
    if i < |b| then b[i] else 0
  }

  lemma ByteIs(b: seq<byte>, i: nat)
    ensures Number(InputBits(b, 8 * i, 8)) == ByteAt(b, i)
  {
    var bits, v := InputBits(b, 8 * i, 8), ByteAt(b, i);
    SmallPowers();
    forall p | 0 <= p < 8 ensures bits[7 - p] == Bit(v, p) {
      var j := 8 * i + (7 - p);
      assert j / 8 == i && j % 8 == 7 - p;
      assert bits[7 - p] == InputBit(b, j);
      if i >= |b| { BitOfZero(p); }
    }
    NumberOfBits(v, bits);
  }

  lemma {:induction false} BitOfZero(p: nat)
    ensures Bit(0, p) == 0
  {
    if p > 0 { BitOfZero(p - 1); }
  }

  /** Twenty-four input bits, as three bytes and as four sixes. */
  lemma Group(b: seq<byte>, g: nat)
    ensures var n := ByteAt(b, 3 * g) * 0x1_0000 + ByteAt(b, 3 * g + 1) * 0x100 + ByteAt(b, 3 * g + 2);
      && n / 0x4_0000 % 64 == Sextet(b, 4 * g) && n / 0x1000 % 64 == Sextet(b, 4 * g + 1)
      && n / 64 % 64 == Sextet(b, 4 * g + 2) && n % 64 == Sextet(b, 4 * g + 3)
  {
    hide Number, ByteAt;
    var bits := InputBits(b, 24 * g, 24);
    var x, y, z := InputBits(b, 8 * (3 * g), 8), InputBits(b, 8 * (3 * g + 1), 8), InputBits(b, 8 * (3 * g + 2), 8);
    ByteIs(b, 3 * g);
    ByteIs(b, 3 * g + 1);
    ByteIs(b, 3 * g + 2);
    assert bits == (x + y) + z;
    SmallPowers();
    NumberConcat(x + y, z);
    NumberConcat(x, y);
    var n := Number(bits);
    var p, q, r, t := InputBits(b, 6 * (4 * g), 6), InputBits(b, 6 * (4 * g + 1), 6), InputBits(b, 6 * (4 * g + 2), 6),
      InputBits(b, 6 * (4 * g + 3), 6);
    assert bits == ((p + q) + r) + t;
    NumberConcat((p + q) + r, t);
    NumberConcat(p + q, r);
    NumberConcat(p, q);
    FourSixes(Sextet(b, 4 * g), Sextet(b, 4 * g + 1), Sextet(b, 4 * g + 2), Sextet(b, 4 * g + 3), n);
  }

  lemma FourSixes(p: nat, q: nat, r: nat, t: nat, n: nat)
    requires p < 64 && q < 64 && r < 64 && t < 64 && n == ((p * 64 + q) * 64 + r) * 64 + t
    ensures n / 0x4_0000 % 64 == p && n / 0x1000 % 64 == q && n / 64 % 64 == r && n % 64 == t
  {
  }

  /** One group: up to three bytes into 24 bits, four characters out of them. */
  method EncodeGroup(b: array<byte>, i: nat, out: array<char>, j: nat)
    requires i < b.Length && i % 3 == 0 && j == i / 3 * 4 && j + 4 <= out.Length
    modifies out
    ensures forall k :: 0 <= k < j ==> out[k] == old(out[k])
    ensures forall k :: j <= k < j + 4 ==> out[k] == Symbol(b[..], k)
  {
    hide Symbol, Sextet, Value, Letter;
    Group(b[..], i / 3);
    FourSymbols(b[..], i / 3);
    var n := b[i] as int * 0x1_0000;
    if i + 1 < b.Length {
      n := n + b[i + 1] as int * 0x100;
    }
    if i + 2 < b.Length {
      n := n + b[i + 2] as int;
    }
    ThreeBytes(b[..], i / 3, n);
    out[j] := Letter(n / 0x4_0000 % 64);
    out[j + 1] := Letter(n / 0x1000 % 64);
    if i + 1 < b.Length {
      out[j + 2] := Letter(n / 64 % 64);
    } else {
      out[j + 2] := '=';
    }
    if i + 2 < b.Length {
      out[j + 3] := Letter(n % 64);
    } else {
      out[j + 3] := '=';
    }
  }

  lemma ThreeBytes(b: seq<byte>, g: nat, n: nat)
    requires 3 * g < |b|
    requires n == b[3 * g] as int * 0x1_0000 + (if 3 * g + 1 < |b| then b[3 * g + 1] as int * 0x100 else 0)
                + (if 3 * g + 2 < |b| then b[3 * g + 2] as int else 0)
    ensures n == ByteAt(b, 3 * g) * 0x1_0000 + ByteAt(b, 3 * g + 1) * 0x100 + ByteAt(b, 3 * g + 2)
  {
  }

  /** The encoder, three bytes at a time. */
  method EncodeBytes(b: array<byte>) returns (s: string)
    ensures s == Encode(b[..])
  {
    hide Symbol;
    if b.Length == 0 {
      return "";
    }
    var out := new char[(b.Length + 2) / 3 * 4];
    var j := 0;
    var i := 0;
    while i < b.Length
      invariant i % 3 == 0 && j == i / 3 * 4 && i <= b.Length + 2
      invariant forall k :: 0 <= k < j ==> out[k] == Symbol(b[..], k)
    {
      EncodeGroup(b, i, out, j);
      j := j + 4;
      i := i + 3;
    }
    return out[..];
  }

  lemma FourSymbols(b: seq<byte>, g: nat)
    requires 3 * g < |b|
    ensures Symbol(b, 4 * g) == Letter(Sextet(b, 4 * g)) && Symbol(b, 4 * g + 1) == Letter(Sextet(b, 4 * g + 1))
    ensures Symbol(b, 4 * g + 2) == if 3 * g + 1 < |b| then Letter(Sextet(b, 4 * g + 2)) else '='
    ensures Symbol(b, 4 * g + 3) == if 3 * g + 2 < |b| then Letter(Sextet(b, 4 * g + 3)) else '='
  {
    hide Sextet;
  }

  // ----- decoding

  function Pads(s: string): (p: nat)
    ensures p <= |s|
  {
    var n := |s|;
    if n >= 2 && s[n - 1] == '=' && s[n - 2] == '=' then 2 else if n >= 1 && s[n - 1] == '=' then 1 else 0
  }

  function DecodedLength(s: string): (n: nat) {
    (|s| - Pads(s)) * 6 / 8
  }

  /** Canonical base64 text: whole groups, padding only at the end, no stray bits under the padding. */
  ghost predicate IsCanonical(s: string) {
    && |s| % 4 == 0
    && (forall k :: 0 <= k < |s| - Pads(s) ==> Value(s[k]) < 64)
    && (forall i :: 8 * DecodedLength(s) <= i < 6 * (|s| - Pads(s)) ==> TextBit(s, i) == 0)
  }

  /** A strict decoder: eight text bits to a byte. */
  ghost function Decode(s: string): Option<seq<byte>> {
    if IsCanonical(s) then Some(seq<byte>(DecodedLength(s), (m: nat) => Octet(s, m))) else None
  }

  // ----- decoding an encoding

  lemma SymbolIs(b: seq<byte>, k: nat)
    ensures 6 * k < 8 * |b| ==> Symbol(b, k) == Letter(Sextet(b, k)) && Value(Symbol(b, k)) == Sextet(b, k)
    ensures 6 * k < 8 * |b| <==> Symbol(b, k) != '='
  {
    NoPaddingLetter(Sextet(b, k));
    hide Sextet;
  }

  /** Padding is only ever in the last two positions: two characters for one byte over, one for two bytes over. */
  lemma PaddingOfEncoding(b: seq<byte>)
    ensures Pads(Encode(b)) == if |b| % 3 == 1 then 2 else if |b| % 3 == 2 then 1 else 0
    ensures |Encode(b)| % 4 == 0
    ensures 6 * (|Encode(b)| - Pads(Encode(b))) == 8 * |b| + 2 * Pads(Encode(b))
    ensures forall k :: 0 <= k < |Encode(b)| ==> (Encode(b)[k] == '=' <==> k >= |Encode(b)| - Pads(Encode(b)))
    ensures DecodedLength(Encode(b)) == |b|
  {
    hide Symbol, Sextet;
    var s := Encode(b);
    forall k: nat { SymbolIs(b, k); }
  }

  /** An encoding carries the input's bits in order. */
  lemma EncodedBit(b: seq<byte>, i: nat)
    requires i < 6 * (|Encode(b)| - Pads(Encode(b)))
    ensures TextBit(Encode(b), i) == InputBit(b, i)
  {
    var s, k := Encode(b), i / 6;
    PaddingOfEncoding(b);
    assert s[k] == Symbol(b, k);
    SymbolIs(b, k);
    var bits := InputBits(b, 6 * k, 6);
    BitOfNumber(bits, 5 - i % 6);
    assert bits[i % 6] == InputBit(b, 6 * k + i % 6);
  }

  lemma EncodingIsCanonical(b: seq<byte>)
    ensures IsCanonical(Encode(b))
  {
    hide Symbol, Sextet, InputBit, TextBit;
    var s := Encode(b);
    PaddingOfEncoding(b);
    forall k | 0 <= k < |s| - Pads(s) ensures Value(s[k]) < 64 {
      SymbolIs(b, k);
    }
    forall i | 8 * DecodedLength(s) <= i < 6 * (|s| - Pads(s)) ensures TextBit(s, i) == 0 {
      EncodedBit(b, i);
      BeyondInput(b, i);
    }
  }

  lemma BeyondInput(b: seq<byte>, i: nat)
    requires i >= 8 * |b|
    ensures InputBit(b, i) == 0
  {
  }

  /** Decoding an encoding gives the input back, for every byte string. */
  lemma DecodeOfEncode(b: seq<byte>)
    ensures Decode(Encode(b)) == Some(b)
  {
    hide Symbol, Sextet, InputBit, TextBit, Number;
    var s := Encode(b);
    EncodingIsCanonical(b);
    PaddingOfEncoding(b);
    forall m | 0 <= m < |b| ensures Octet(s, m) == b[m] {
      forall i | 8 * m <= i < 8 * m + 8 ensures TextBit(s, i) == InputBit(b, i) {
        EncodedBit(b, i);
      }
      assert TextBits(s, 8 * m, 8) == InputBits(b, 8 * m, 8);
      ByteIs(b, m);
    }
    assert Decode(s).value == b;
  }

  /** Two inputs never share an encoding. */
  lemma EncodeIsInjective(b: seq<byte>, c: seq<byte>)
    requires Encode(b) == Encode(c)
    ensures b == c
  {
    hide *;
    DecodeOfEncode(b);
    DecodeOfEncode(c);
  }

  // ----- encoding a decoding

  lemma CanonicalShape(s: string)
    requires IsCanonical(s)
    ensures Pads(s) < |s| || s == ""
    ensures 6 * (|s| - Pads(s)) == 8 * DecodedLength(s) + 2 * Pads(s)
    ensures EncodedLength(DecodedLength(s)) == |s|
    ensures forall k :: |s| - Pads(s) <= k < |s| ==> s[k] == '='
  {
    hide TextBit;
  }

  /** A decoded byte carries eight of the text's bits. */
  lemma DecodedBit(s: string, b: seq<byte>, i: nat)
    requires Decode(s) == Some(b) && i < 6 * (|s| - Pads(s))
    ensures InputBit(b, i) == TextBit(s, i)
  {
    CanonicalShape(s);
    if i < 8 * |b| {
      var m := i / 8;
      assert b[m] == Octet(s, m);
      var bits := TextBits(s, 8 * m, 8);
      BitOfNumber(bits, 7 - i % 8);
      assert bits[i % 8] == TextBit(s, 8 * m + i % 8);
    }
  }

  /** The decoder accepts only what the encoder writes. */
  lemma EncodeOfDecode(s: string, b: seq<byte>)
    requires Decode(s) == Some(b)
    ensures Encode(b) == s
  {
    hide Sextet, InputBit, TextBit, Letter;
    CanonicalShape(s);
    forall k | 0 <= k < |s| ensures Symbol(b, k) == s[k] {
      if k < |s| - Pads(s) {
        forall i | 6 * k <= i < 6 * k + 6 ensures InputBit(b, i) == TextBit(s, i) {
          DecodedBit(s, b, i);
        }
        assert InputBits(b, 6 * k, 6) == TextBits(s, 6 * k, 6);
        SixesAre(b, k);
        CharacterIs(s, k);
        LetterOfValue(s[k]);
      }
    }
  }

  lemma SixesAre(b: seq<byte>, k: nat)
    ensures Sextet(b, k) == Number(InputBits(b, 6 * k, 6))
  {
  }

  lemma CharacterIs(s: string, k: nat)
    requires k < |s| && Value(s[k]) < 64
    ensures Number(TextBits(s, 6 * k, 6)) == Value(s[k])
  {
    var bits, v := TextBits(s, 6 * k, 6), Value(s[k]);
    SmallPowers();
    forall p | 0 <= p < 6 ensures bits[5 - p] == Bit(v, p) {
      var j := 6 * k + (5 - p);
      assert j / 6 == k && j % 6 == 5 - p;
      assert bits[5 - p] == TextBit(s, j);
    }
    NumberOfBits(v, bits);
  }
}
