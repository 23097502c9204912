/** Byte strings as `str` holds them: UTF-8, by the grammar of section 4 of RFC 3629. */
module Utf8 {
  type Byte = b: int | 0 <= b < 256

  type Bytes = seq<Byte>

  /** How far the scanner steps, judged by the lead byte alone. */
  function Utf8Len(b: Byte): nat {
    if b < 0x80 then 1
    else if b / 32 == 0x6 then 2
    else if b / 16 == 0xE then 3
    else 4
  }

  predicate ByteIn(s: Bytes, i: nat, lo: Byte, hi: Byte) {
    i < |s| && lo <= s[i] <= hi
  }

  predicate Tail(s: Bytes, i: nat) {
    ByteIn(s, i, 0x80, 0xBF)
  }

  /** UTF8-2, UTF8-3 and UTF8-4 of the grammar. */
  predicate TwoByteChar(s: Bytes, i: nat) {
    ByteIn(s, i, 0xC2, 0xDF) && Tail(s, i + 1)
  }

  predicate ThreeByteChar(s: Bytes, i: nat) {
    && Tail(s, i + 2)
    && (|| (ByteIn(s, i, 0xE0, 0xE0) && ByteIn(s, i + 1, 0xA0, 0xBF))
        || (ByteIn(s, i, 0xE1, 0xEC) && Tail(s, i + 1))
        || (ByteIn(s, i, 0xED, 0xED) && ByteIn(s, i + 1, 0x80, 0x9F))
        || (ByteIn(s, i, 0xEE, 0xEF) && Tail(s, i + 1)))
  }

  predicate FourByteChar(s: Bytes, i: nat) {
    && Tail(s, i + 2) && Tail(s, i + 3)
    && (|| (ByteIn(s, i, 0xF0, 0xF0) && ByteIn(s, i + 1, 0x90, 0xBF))
        || (ByteIn(s, i, 0xF1, 0xF3) && Tail(s, i + 1))
        || (ByteIn(s, i, 0xF4, 0xF4) && ByteIn(s, i + 1, 0x80, 0x8F)))
  }

  /** The length of the character at `i`, or zero if there is none. */
  function CharAt(s: Bytes, i: nat): (n: nat)
    ensures i + n <= |s| || n == 0
  {
    if ByteIn(s, i, 0x00, 0x7F) then 1
    else if TwoByteChar(s, i) then 2
    else if ThreeByteChar(s, i) then 3
    else if FourByteChar(s, i) then 4
    else 0
  }

  predicate WellFormedFrom(s: Bytes, i: nat)
    decreases |s| - i
  {
    i == |s| || (i < |s| && CharAt(s, i) > 0 && WellFormedFrom(s, i + CharAt(s, i)))
  }

  predicate WellFormed(s: Bytes) {
    WellFormedFrom(s, 0)
  }

  predicate IsCharBoundary(s: Bytes, i: nat) {
    i == |s| || (i < |s| && !Tail(s, i))
  }

  /** `&s[lo..hi]`, which panics unless both ends are in range and on a character boundary. */
  function Slice(s: Bytes, lo: nat, hi: nat): (r: Bytes)
    requires lo <= hi && IsCharBoundary(s, lo) && IsCharBoundary(s, hi)
  {
    s[lo..hi]
  }

  /** From a character start in a well-formed string, `Utf8Len` steps over exactly that character: both ends
      are boundaries, what follows is well-formed, and every byte jumped over is part of the character. */
  lemma StepIsOneChar(s: Bytes, i: nat)
    requires i < |s| && WellFormedFrom(s, i)
    ensures i + Utf8Len(s[i]) <= |s| && WellFormedFrom(s, i + Utf8Len(s[i]))
    ensures IsCharBoundary(s, i) && IsCharBoundary(s, i + Utf8Len(s[i]))
    ensures forall k :: i < k < i + Utf8Len(s[i]) ==> Tail(s, k)
  {
    StartIsBoundary(s, i);
    assert Utf8Len(s[i]) == CharAt(s, i);
    StartIsBoundary(s, i + CharAt(s, i));
  }

  lemma StartIsBoundary(s: Bytes, i: nat)
    requires WellFormedFrom(s, i)
    ensures IsCharBoundary(s, i)
  {
  }

  /** Stepping over ASCII one byte at a time stays on character starts. */
  lemma {:induction false} AsciiKeepsWellFormed(s: Bytes, i: nat, end: nat)
    requires i <= end <= |s| && WellFormedFrom(s, i)
    requires forall k :: i <= k < end ==> s[k] < 0x80
    ensures WellFormedFrom(s, end)
    decreases end - i
  {
    if i < end {
      AsciiKeepsWellFormed(s, i + 1, end);
    }
  }

  /** Writing ASCII over ASCII keeps a string well-formed. */
  predicate AsciiEdit(s: Bytes, t: Bytes) {
    |t| == |s| && forall k :: 0 <= k < |s| ==> t[k] == s[k] || (s[k] < 0x80 && t[k] < 0x80)
  }

  lemma {:induction false} AsciiEditKeepsWellFormed(s: Bytes, t: Bytes, i: nat)
    requires AsciiEdit(s, t) && WellFormedFrom(s, i)
    ensures WellFormedFrom(t, i)
    decreases |s| - i
  {
    if i < |s| {
      AsciiEditKeepsChar(s, t, i);
      AsciiEditKeepsWellFormed(s, t, i + CharAt(s, i));
    }
  }

  lemma AsciiEditKeepsChar(s: Bytes, t: Bytes, i: nat)
    requires AsciiEdit(s, t) && i < |s|
    ensures CharAt(t, i) == CharAt(s, i)
  {
    assert forall k, lo: Byte, hi: Byte | 0 <= k < |s| && 0x80 <= lo :: ByteIn(t, k, lo, hi) == ByteIn(s, k, lo, hi);
  }

  // ---- the grammar is the encoding ----

  /** The Unicode scalar values. */
  predicate IsScalar(c: int) {
    0 <= c < 0xD800 || 0xE000 <= c < 0x11_0000
  }

  /** The encoding of section 3 of RFC 3629. */
  function Encode(c: int): Bytes
    requires IsScalar(c)
  {
    if c < 0x80 then [c]
    else if c < 0x800 then [0xC0 + c / 0x40, 0x80 + c % 0x40]
    else if c < 0x1_0000 then [0xE0 + c / 0x1000, 0x80 + c / 0x40 % 0x40, 0x80 + c % 0x40]
    else [0xF0 + c / 0x4_0000, 0x80 + c / 0x1000 % 0x40, 0x80 + c / 0x40 % 0x40, 0x80 + c % 0x40]
  }

  /** Every encoded character is one character of the grammar, and of the length the scanner reads off its lead
      byte. */
  lemma EncodedIsOneChar(c: int)
    requires IsScalar(c)
    ensures CharAt(Encode(c), 0) == |Encode(c)| == Utf8Len(Encode(c)[0]) && WellFormed(Encode(c))
  {
  }

  lemma EncodesTwo(b0: Byte, b1: Byte)
    requires 0xC2 <= b0 <= 0xDF && 0x80 <= b1 <= 0xBF
    ensures var c := (b0 as int - 0xC0) * 0x40 + b1 as int - 0x80; IsScalar(c) && Encode(c) == [b0, b1]
  {
  }

  lemma EncodesThree(b0: Byte, b1: Byte, b2: Byte)
    requires 0xE0 <= b0 <= 0xEF && 0x80 <= b1 <= 0xBF && 0x80 <= b2 <= 0xBF
    requires (b0 == 0xE0 ==> b1 >= 0xA0) && (b0 == 0xED ==> b1 <= 0x9F)
    ensures var c := (b0 as int - 0xE0) * 0x1000 + (b1 as int - 0x80) * 0x40 + b2 as int - 0x80;
      IsScalar(c) && Encode(c) == [b0, b1, b2]
  {
    var a, b, d := b0 as int - 0xE0, b1 as int - 0x80, b2 as int - 0x80;
    var c := a * 0x1000 + b * 0x40 + d;
    assert c / 0x40 == a * 0x40 + b && c % 0x40 == d;
    assert c / 0x1000 == a;
  }

  lemma EncodesFour(b0: Byte, b1: Byte, b2: Byte, b3: Byte)
    requires 0xF0 <= b0 <= 0xF4 && 0x80 <= b1 <= 0xBF && 0x80 <= b2 <= 0xBF && 0x80 <= b3 <= 0xBF
    requires (b0 == 0xF0 ==> b1 >= 0x90) && (b0 == 0xF4 ==> b1 <= 0x8F)
    ensures var c := (b0 as int - 0xF0) * 0x4_0000 + (b1 as int - 0x80) * 0x1000 + (b2 as int - 0x80) * 0x40
                     + b3 as int - 0x80;
      IsScalar(c) && Encode(c) == [b0, b1, b2, b3]
  {
    var a, b, d, e := b0 as int - 0xF0, b1 as int - 0x80, b2 as int - 0x80, b3 as int - 0x80;
    var c := a * 0x4_0000 + b * 0x1000 + d * 0x40 + e;
    assert c / 0x40 == a * 0x1000 + b * 0x40 + d && c % 0x40 == e;
    assert c / 0x1000 == a * 0x40 + b && c / 0x4_0000 == a;
  }

  /** Every character of the grammar encodes a scalar value. */
  lemma CharIsEncoded(s: Bytes, i: nat) returns (c: int)
    requires i < |s| && CharAt(s, i) > 0
    ensures IsScalar(c) && s[i..i + CharAt(s, i)] == Encode(c)
  {
    if CharAt(s, i) == 1 {
      c := s[i];
    } else if CharAt(s, i) == 2 {
      EncodesTwo(s[i], s[i + 1]);
      c := (s[i] as int - 0xC0) * 0x40 + s[i + 1] as int - 0x80;
    } else if CharAt(s, i) == 3 {
      EncodesThree(s[i], s[i + 1], s[i + 2]);
      c := (s[i] as int - 0xE0) * 0x1000 + (s[i + 1] as int - 0x80) * 0x40 + s[i + 2] as int - 0x80;
    } else {
      EncodesFour(s[i], s[i + 1], s[i + 2], s[i + 3]);
      c := (s[i] as int - 0xF0) * 0x4_0000 + (s[i + 1] as int - 0x80) * 0x1000 + (s[i + 2] as int - 0x80) * 0x40
           + s[i + 3] as int - 0x80;
    }
  }
}
