// Bytes and UTF-8, as Go and the browsers decode it.
module Bytes {

  type Byte = n: nat | n < 256 witness 0

  const LF: Byte := 10
  const CR: Byte := 13
  const TAB: Byte := 9
  const SPACE: Byte := 32
  const COLON: Byte := 58
  const ESC: Byte := 0x1b
  const DEL: Byte := 0x7f

  predicate Plain(s: string) {
    forall i | 0 <= i < |s| :: 32 <= s[i] as int < 127
  }

  function Ascii(s: string): (b: seq<Byte>)
    requires Plain(s)
    ensures |b| == |s|
  {
    seq(|s|, i requires 0 <= i < |s| => s[i] as int)
  }

  // Terminal controls: C0 and DEL.
  predicate Control(n: nat) {
    n < 0x20 || n == DEL
  }

  predicate NoControls(bytes: seq<Byte>) {
    forall i | 0 <= i < |bytes| :: !Control(bytes[i])
  }

  // ------------------------------------------------------------------ UTF-8

  // A Unicode scalar value: no surrogates.
  type Rune = n: nat | n < 0x11_0000 && !(0xD800 <= n < 0xE000) witness 0

  // U+FFFD, what an invalid byte decodes to.
  const REPLACEMENT: Rune := 0xFFFD

  function Encode(r: Rune): (bytes: seq<Byte>)
    ensures 1 <= |bytes| <= 4
    ensures r < 0x80 ==> bytes == [r]
    ensures r >= 0x80 ==> forall i | 0 <= i < |bytes| :: bytes[i] >= 0x80
  {
    if r < 0x80 then [r]
    else if r < 0x800 then [0xC0 + r / 64, 0x80 + r % 64]
    else if r < 0x1_0000 then [0xE0 + r / 4096, 0x80 + r / 64 % 64, 0x80 + r % 64]
    else [0xF0 + r / 262144, 0x80 + r / 4096 % 64, 0x80 + r / 64 % 64, 0x80 + r % 64]
  }

  function EncodeAll(runes: seq<Rune>): seq<Byte> {
    if runes == [] then [] else EncodeAll(runes[..|runes| - 1]) + Encode(runes[|runes| - 1])
  }

  predicate Trail(s: seq<Byte>, i: nat, low: nat, high: nat) {
    i < |s| && low <= s[i] <= high
  }

  // The range the byte after a leading byte must lie in, shortest forms and
  // scalar values only.
  function SecondLow(b: Byte): nat {
    if b == 0xE0 then 0xA0 else if b == 0xF0 then 0x90 else 0x80
  }

  function SecondHigh(b: Byte): nat {
    if b == 0xED then 0x9F else if b == 0xF4 then 0x8F else 0xBF
  }

  // The first rune of a byte string and the bytes it takes: an invalid byte
  // is one replacement character.
  function DecodeOne(s: seq<Byte>): (r: (Rune, nat))
    requires s != []
    ensures 1 <= r.1 <= 4 && r.1 <= |s|
    ensures r.0 < 0x80 <==> s[0] < 0x80
    ensures s[0] < 0x80 ==> r == (s[0], 1)
  {
    var b: int := s[0];
    if b < 0x80 then (b, 1)
    else if 0xC2 <= b <= 0xDF && Trail(s, 1, 0x80, 0xBF) then (Two(b, s[1]), 2)
    else if 0xE0 <= b <= 0xEF && Trail(s, 1, SecondLow(b), SecondHigh(b)) && Trail(s, 2, 0x80, 0xBF) then
      (Three(b, s[1], s[2]), 3)
    else if 0xF0 <= b <= 0xF4 && Trail(s, 1, SecondLow(b), SecondHigh(b)) && Trail(s, 2, 0x80, 0xBF)
            && Trail(s, 3, 0x80, 0xBF) then
      (Four(b, s[1], s[2], s[3]), 4)
    else (REPLACEMENT, 1)
  }

  // The scalar values of two, three and four byte sequences.
  function Two(b0: int, b1: int): int { (b0 - 0xC0) * 64 + (b1 - 0x80) }
  function Three(b0: int, b1: int, b2: int): int { (b0 - 0xE0) * 4096 + (b1 - 0x80) * 64 + (b2 - 0x80) }
  function Four(b0: int, b1: int, b2: int, b3: int): int {
    (b0 - 0xF0) * 262144 + (b1 - 0x80) * 4096 + (b2 - 0x80) * 64 + (b3 - 0x80)
  }

  function Decode(s: seq<Byte>): (runes: seq<Rune>)
    ensures |runes| <= |s|
  {
    if s == [] then [] else [DecodeOne(s).0] + Decode(s[DecodeOne(s).1..])
  }

  // The base-64 digits of a scalar value.
  lemma Digits(r: nat)
    ensures r == r / 64 * 64 + r % 64
    ensures r == r / 4096 * 4096 + r / 64 % 64 * 64 + r % 64
    ensures r == r / 262144 * 262144 + r / 4096 % 64 * 4096 + r / 64 % 64 * 64 + r % 64
  {
    assert r / 64 / 64 == r / 4096;
    assert r / 4096 / 64 == r / 262144;
    assert r / 64 == r / 64 / 64 * 64 + r / 64 % 64;
    assert r / 4096 == r / 4096 / 64 * 64 + r / 4096 % 64;
  }

  lemma DecodeEncodeOne(r: Rune, rest: seq<Byte>)
    ensures DecodeOne(Encode(r) + rest) == (r, |Encode(r)|)
  {
    hide Two, Three, Four;
    var s := Encode(r) + rest;
    ValuesOf(r);
    if r < 0x800 {
      assert r >= 0x80 ==> s[1] == 0x80 + r % 64;
    } else if r < 0x1_0000 {
      Seconds(r);
      assert s[1] == 0x80 + r / 64 % 64 && s[2] == 0x80 + r % 64;
    } else {
      Seconds(r);
      assert s[1] == 0x80 + r / 4096 % 64 && s[2] == 0x80 + r / 64 % 64 && s[3] == 0x80 + r % 64;
    }
  }

  lemma ValuesOf(r: Rune)
    ensures Two(0xC0 + r / 64, 0x80 + r % 64) == r
    ensures Three(0xE0 + r / 4096, 0x80 + r / 64 % 64, 0x80 + r % 64) == r
    ensures Four(0xF0 + r / 262144, 0x80 + r / 4096 % 64, 0x80 + r / 64 % 64, 0x80 + r % 64) == r
  {
    Digits(r);
  }

  // The second byte of an encoding lies in the decoder's range.
  lemma Seconds(r: Rune)
    ensures 0x800 <= r < 0x1_0000 ==>
              var b := 0xE0 + r / 4096; SecondLow(b) <= 0x80 + r / 64 % 64 <= SecondHigh(b)
    ensures 0x1_0000 <= r ==>
              var b := 0xF0 + r / 262144; SecondLow(b) <= 0x80 + r / 4096 % 64 <= SecondHigh(b)
  {
    Digits(r);
  }

  // What a well-formed sequence decodes to is encoded by it.
  lemma TwoBack(b0: Byte, b1: Byte)
    requires 0xC2 <= b0 <= 0xDF && 0x80 <= b1 <= 0xBF
    ensures var r := Two(b0, b1); 0x80 <= r < 0x800 && Encode(r) == [b0, b1]
  {
  }

  lemma ThreeBack(b0: Byte, b1: Byte, b2: Byte)
    requires 0xE0 <= b0 <= 0xEF && SecondLow(b0) <= b1 <= SecondHigh(b0) && 0x80 <= b2 <= 0xBF
    ensures var r := Three(b0, b1, b2); 0x800 <= r < 0x1_0000 && !(0xD800 <= r < 0xE000) && Encode(r) == [b0, b1, b2]
  {
    var r := Three(b0, b1, b2);
    assert r / 64 == (b0 - 0xE0) * 64 + (b1 - 0x80);
    assert r / 4096 == b0 - 0xE0;
  }

  lemma FourBack(b0: Byte, b1: Byte, b2: Byte, b3: Byte)
    requires 0xF0 <= b0 <= 0xF4 && SecondLow(b0) <= b1 <= SecondHigh(b0)
    requires 0x80 <= b2 <= 0xBF && 0x80 <= b3 <= 0xBF
    ensures var r := Four(b0, b1, b2, b3); 0x1_0000 <= r < 0x11_0000 && Encode(r) == [b0, b1, b2, b3]
  {
    var r := Four(b0, b1, b2, b3);
    assert r / 64 == (b0 - 0xF0) * 4096 + (b1 - 0x80) * 64 + (b2 - 0x80);
    assert r / 4096 == (b0 - 0xF0) * 64 + (b1 - 0x80);
    assert r / 262144 == b0 - 0xF0;
  }

  // The decoder reads the character a text starts with; where none starts, an
  // invalid byte is read as U+FFFD.
  lemma DecodeOneExact(s: seq<Byte>)
    requires s != []
    ensures var (r, size) := DecodeOne(s);
            Encode(r) == s[..size] || (r == REPLACEMENT && size == 1 && forall c: Rune :: !(Encode(c) <= s))
  {
    hide Two, Three, Four;
    var b := s[0];
    if 0xC2 <= b <= 0xDF && Trail(s, 1, 0x80, 0xBF) {
      TwoBack(b, s[1]);
    } else if 0xE0 <= b <= 0xEF && Trail(s, 1, SecondLow(b), SecondHigh(b)) && Trail(s, 2, 0x80, 0xBF) {
      ThreeBack(b, s[1], s[2]);
    } else if 0xF0 <= b <= 0xF4 && Trail(s, 1, SecondLow(b), SecondHigh(b)) && Trail(s, 2, 0x80, 0xBF)
              && Trail(s, 3, 0x80, 0xBF) {
      FourBack(b, s[1], s[2], s[3]);
    }
    forall c: Rune | Encode(c) <= s
      ensures Encode(c) == s[..DecodeOne(s).1]
    {
      DecodeEncodeOne(c, s[|Encode(c)|..]);
      assert Encode(c) + s[|Encode(c)|..] == s;
    }
  }

  lemma EncodeAppend(runes: seq<Rune>, r: Rune)
    ensures EncodeAll(runes + [r]) == EncodeAll(runes) + Encode(r)
  {
    assert (runes + [r])[..|runes|] == runes;
  }

  lemma EncodeLast(runes: seq<Rune>)
    requires runes != []
    ensures EncodeAll(runes) == EncodeAll(runes[..|runes| - 1]) + Encode(runes[|runes| - 1])
  {
  }

  lemma EncodeNothing()
    ensures EncodeAll([]) == []
  {
  }

  lemma {:induction false} EncodeFirst(runes: seq<Rune>)
    requires runes != []
    ensures EncodeAll(runes) == Encode(runes[0]) + EncodeAll(runes[1..])
  {
    hide Encode, EncodeAll;
    var front, last := runes[..|runes| - 1], runes[|runes| - 1];
    EncodeLast(runes);
    EncodeNothing();
    if front == [] {
      assert runes[1..] == [];
      assert [] + Encode(last) == Encode(last) == Encode(last) + [];
    } else {
      EncodeFirst(front);
      assert front[0] == runes[0];
      EncodeAppend(front[1..], last);
      assert runes[1..] == front[1..] + [last];
    }
  }

  // Encoding loses nothing.
  lemma {:induction false} DecodeEncode(runes: seq<Rune>)
    ensures Decode(EncodeAll(runes)) == runes
  {
    if runes != [] {
      EncodeFirst(runes);
      var head, rest := Encode(runes[0]), EncodeAll(runes[1..]);
      DecodeEncodeOne(runes[0], rest);
      assert (head + rest)[|head|..] == rest;
      DecodeEncode(runes[1..]);
    }
  }

  // An encoded control is a control byte, and nothing else has one.
  lemma {:induction false} EncodeControls(runes: seq<Rune>)
    ensures NoControls(EncodeAll(runes)) <==> forall i | 0 <= i < |runes| :: !Control(runes[i])
  {
    if runes != [] {
      var front, last := runes[..|runes| - 1], runes[|runes| - 1];
      EncodeControls(front);
      ControlsConcat(EncodeAll(front), Encode(last));
      assert forall i | 0 <= i < |front| :: runes[i] == front[i];
      if last < 0x80 {
        assert Encode(last)[0] == last;
      }
    }
  }

  lemma ControlsConcat(a: seq<Byte>, b: seq<Byte>)
    ensures NoControls(a + b) <==> NoControls(a) && NoControls(b)
  {
    assert forall i | 0 <= i < |a| :: (a + b)[i] == a[i];
    assert forall i | 0 <= i < |b| :: (a + b)[|a| + i] == b[i];
  }
}
