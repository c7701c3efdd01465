/**
UTF-8 as in section 3 of RFC 3629 and UTF-16 as in sections 2.1 and 2.2 of RFC 2781, on integers.
*/
module Unicode {
  import opened Options

  type Byte = b: int | 0 <= b < 0x100
  type Unit = u: int | 0 <= u < 0x1_0000

  predicate IsScalar(r: int) {
    0 <= r < 0xD800 || 0xE000 <= r < 0x11_0000
  }

  predicate AllScalars(rs: seq<int>) {
    forall r <- rs :: IsScalar(r)
  }

  const Replacement := 0xFFFD

  // ---------- UTF-8 ----------

  /** utf8.EncodeRune: what is not a scalar value is encoded as the replacement character. */
  function EncodeRune(rune: int): (bs: seq<Byte>)
    ensures 1 <= |bs| <= 4
  {
    var r := if IsScalar(rune) then rune else Replacement;
    var q := r / 64;
    var p := q / 64;
    if r < 0x80 then [r]
    else if r < 0x800 then [0xC0 + q, 0x80 + r % 64]
    else if r < 0x1_0000 then [0xE0 + p, 0x80 + q % 64, 0x80 + r % 64]
    else [0xF0 + p / 64, 0x80 + p % 64, 0x80 + q % 64, 0x80 + r % 64]
  }

  function Utf8(rs: seq<int>): seq<Byte> {
    if rs == [] then [] else EncodeRune(rs[0]) + Utf8(rs[1..])
  }

  predicate IsTail(b: int) {
    0x80 <= b < 0xC0
  }

  /** The number of bytes that a first byte announces; 0 when no character starts with it. */
  function Announced(b: Byte): nat {
    if b < 0x80 then 1 else if b < 0xC0 then 0 else if b < 0xE0 then 2 else if b < 0xF0 then 3 else if b < 0xF8 then 4 else 0
  }

  /** Six more bits from a tail byte. */
  function Push(high: int, tail: int): int {
    high * 64 + (tail - 0x80)
  }

  function Payload(bs: seq<Byte>): int
    requires |bs| > 0 && Announced(bs[0]) == |bs|
  {
    if |bs| == 1 then bs[0]
    else if |bs| == 2 then Push(bs[0] - 0xC0, bs[1])
    else if |bs| == 3 then Push(Push(bs[0] - 0xE0, bs[1]), bs[2])
    else Push(Push(Push(bs[0] - 0xF0, bs[1]), bs[2]), bs[3])
  }

  /** One character: tail bytes in place, a scalar value, in no more bytes than it needs. */
  predicate IsCharacter(bs: seq<Byte>) {
    && |bs| > 0 && Announced(bs[0]) == |bs|
    && (forall i :: 1 <= i < |bs| ==> IsTail(bs[i]))
    && IsScalar(Payload(bs))
    && (|bs| == 2 ==> Payload(bs) >= 0x80) && (|bs| == 3 ==> Payload(bs) >= 0x800) && (|bs| == 4 ==> Payload(bs) >= 0x1_0000)
  }

  /** The scalar values of a UTF-8 text, `None` when it is not well formed. */
  function DecodeUtf8(bs: seq<Byte>): Option<seq<int>> {
    if bs == [] then Some([])
    else
      var n := Announced(bs[0]);
      if n == 0 || |bs| < n || !IsCharacter(bs[..n]) then None
      else
        match DecodeUtf8(bs[n..])
        case None => None
        case Some(rs) => Some([Payload(bs[..n])] + rs)
  }

  lemma RuneIsCharacter(r: int)
    requires IsScalar(r)
    ensures IsCharacter(EncodeRune(r)) && Payload(EncodeRune(r)) == r
  {
  }

  /** Encoding scalar values gives well-formed UTF-8, which decodes to them. */
  lemma {:induction false} DecodeOfUtf8(rs: seq<int>)
    requires AllScalars(rs)
    ensures DecodeUtf8(Utf8(rs)) == Some(rs)
  {
    if rs != [] {
      DecodeOfUtf8(rs[1..]);
      RuneIsCharacter(rs[0]);
      var first, rest := EncodeRune(rs[0]), Utf8(rs[1..]);
      assert (first + rest)[..|first|] == first && (first + rest)[|first|..] == rest;
      assert [rs[0]] + rs[1..] == rs;
    }
  }

  lemma PushSplits(high: int, tail: int)
    requires IsTail(tail)
    ensures Push(high, tail) / 64 == high && Push(high, tail) % 64 == tail - 0x80
  {
  }

  lemma CharacterIsRune(bs: seq<Byte>)
    requires IsCharacter(bs)
    ensures EncodeRune(Payload(bs)) == bs
  {
    if |bs| == 2 {
      PushSplits(bs[0] - 0xC0, bs[1]);
    } else if |bs| == 3 {
      PushSplits(bs[0] - 0xE0, bs[1]);
      PushSplits(Push(bs[0] - 0xE0, bs[1]), bs[2]);
    } else if |bs| == 4 {
      PushSplits(bs[0] - 0xF0, bs[1]);
      PushSplits(Push(bs[0] - 0xF0, bs[1]), bs[2]);
      PushSplits(Push(Push(bs[0] - 0xF0, bs[1]), bs[2]), bs[3]);
    }
  }

  lemma Utf8OfCons(r: int, rs: seq<int>)
    ensures Utf8([r] + rs) == EncodeRune(r) + Utf8(rs)
  {
    assert ([r] + rs)[1..] == rs;
  }

  /** Whatever decodes was the encoding of what it decodes to: well-formed text has one encoding. */
  lemma {:induction false} Utf8OfDecode(bs: seq<Byte>)
    requires DecodeUtf8(bs).Some?
    ensures AllScalars(DecodeUtf8(bs).value) && Utf8(DecodeUtf8(bs).value) == bs
    decreases |bs|
  {
    if bs != [] {
      var n := Announced(bs[0]);
      var first, rest := bs[..n], bs[n..];
      assert bs == first + rest;
      Utf8OfDecode(rest);
      assert IsCharacter(first);
      var r, rs := Payload(first), DecodeUtf8(rest).value;
      assert DecodeUtf8(bs) == Some([r] + rs);
      assert EncodeRune(r) == first by { CharacterIsRune(first); }
      Utf8OfCons(r, rs);
    }
  }

  predicate StartsWell(bs: seq<Byte>) {
    bs != [] &&
    var n := Announced(bs[0]);
    0 < n <= |bs| && IsCharacter(bs[..n])
  }

  /** The characters of a Go string: a byte that starts no character stands for the replacement character. */
  function RunesOfText(bs: seq<Byte>): seq<int>
    decreases |bs|
  {
    if bs == [] then []
    else if !StartsWell(bs) then [Replacement] + RunesOfText(bs[1..])
    else [Payload(bs[..Announced(bs[0])])] + RunesOfText(bs[Announced(bs[0])..])
  }

  lemma {:induction false} TextIsScalars(bs: seq<Byte>)
    ensures AllScalars(RunesOfText(bs))
    decreases |bs|
  {
    if bs != [] {
      TextIsScalars(if StartsWell(bs) then bs[Announced(bs[0])..] else bs[1..]);
    }
  }

  /** On well-formed text that is the decoding. */
  lemma {:induction false} TextIsDecoded(bs: seq<Byte>)
    requires DecodeUtf8(bs).Some?
    ensures RunesOfText(bs) == DecodeUtf8(bs).value
    decreases |bs|
  {
    if bs != [] {
      TextIsDecoded(bs[Announced(bs[0])..]);
    }
  }

  lemma NulOfCharacter(first: seq<Byte>)
    requires IsCharacter(first)
    ensures Payload(first) == 0 <==> 0 in first
  {
  }

  /** The zero byte stands for the NUL character and for nothing else. */
  lemma {:induction false} NulIsNul(bs: seq<Byte>)
    ensures 0 in RunesOfText(bs) <==> 0 in bs
    decreases |bs|
  {
    if StartsWell(bs) {
      var n := Announced(bs[0]);
      var first, rest := bs[..n], bs[n..];
      assert bs == first + rest;
      NulOfCharacter(first);
      NulIsNul(rest);
      assert 0 in bs <==> 0 in first || 0 in rest;
    } else if bs != [] {
      NulIsNul(bs[1..]);
      assert bs == [bs[0]] + bs[1..];
      if bs[0] == 0 {
        assert bs[..1] == [bs[0]];
        assert IsCharacter(bs[..1]);
      }
    }
  }

  /** Character by character, with any encoding of characters. */
  function Encoded(encode: int -> seq<Byte>, rs: seq<int>): seq<Byte> {
    if rs == [] then [] else encode(rs[0]) + Encoded(encode, rs[1..])
  }

  lemma {:induction false} EncodedConcat(encode: int -> seq<Byte>, a: seq<int>, b: seq<int>)
    ensures Encoded(encode, a + b) == Encoded(encode, a) + Encoded(encode, b)
  {
    if a == [] {
      assert a + b == b;
    } else {
      EncodedConcat(encode, a[1..], b);
      assert (a + b)[1..] == a[1..] + b;
      var first, x, y := encode(a[0]), Encoded(encode, a[1..]), Encoded(encode, b);
      assert first + (x + y) == first + x + y;
    }
  }

  lemma {:induction false} Utf8IsEncoded(rs: seq<int>)
    ensures Utf8(rs) == Encoded(EncodeRune, rs)
  {
    if rs != [] {
      Utf8IsEncoded(rs[1..]);
    }
  }

  lemma Utf8Concat(a: seq<int>, b: seq<int>)
    ensures Utf8(a + b) == Utf8(a) + Utf8(b)
  {
    Utf8IsEncoded(a);
    Utf8IsEncoded(b);
    Utf8IsEncoded(a + b);
    EncodedConcat(EncodeRune, a, b);
  }

  // ---------- UTF-16 ----------

  predicate IsHigh(u: int) {
    0xD800 <= u < 0xDC00
  }

  predicate IsLow(u: int) {
    0xDC00 <= u < 0xE000
  }

  function DecodePair(high: int, low: int): int {
    (high - 0xD800) * 1024 + (low - 0xDC00) + 0x1_0000
  }

  /** utf16.Encode of one character. */
  function Units(rune: int): seq<Unit> {
    var r := if IsScalar(rune) then rune else Replacement;
    if r < 0x1_0000 then [r] else [0xD800 + (r - 0x1_0000) / 1024, 0xDC00 + (r - 0x1_0000) % 1024]
  }

  function Utf16(rs: seq<int>): seq<Unit> {
    if rs == [] then [] else Units(rs[0]) + Utf16(rs[1..])
  }

  /** utf16.Decode: every unit that is not part of a pair and is a surrogate becomes the replacement character. */
  function DecodeUtf16(us: seq<Unit>): seq<int> {
    if us == [] then []
    else if IsHigh(us[0]) && |us| > 1 && IsLow(us[1]) then [DecodePair(us[0], us[1])] + DecodeUtf16(us[2..])
    else [if IsScalar(us[0]) then us[0] else Replacement] + DecodeUtf16(us[1..])
  }

  // ---------- little-endian bytes ----------

  function Bytes(us: seq<Unit>): seq<Byte> {
    if us == [] then [] else [us[0] % 256, us[0] / 256] + Bytes(us[1..])
  }

  function Word(low: int, high: int): int {
    low + 256 * high
  }

  function UnitAt(bs: seq<Byte>, i: nat): Unit
    requires i + 1 < |bs|
  {
    Word(bs[i], bs[i + 1])
  }

  function FromBytes(bs: seq<Byte>): (us: seq<Unit>)
    requires |bs| % 2 == 0
    ensures 2 * |us| == |bs|
  {
    if bs == [] then [] else [UnitAt(bs, 0)] + FromBytes(bs[2..])
  }

  lemma {:induction false} FromBytesOfBytes(us: seq<Unit>)
    ensures |Bytes(us)| == 2 * |us| && |Bytes(us)| % 2 == 0 && FromBytes(Bytes(us)) == us
  {
    if us != [] {
      FromBytesOfBytes(us[1..]);
      assert Bytes(us)[2..] == Bytes(us[1..]);
      assert us[0] % 256 + 256 * (us[0] / 256) == us[0];
      assert [us[0]] + us[1..] == us;
    }
  }

  lemma {:induction false} UnitOfBytes(bs: seq<Byte>, k: nat)
    requires |bs| % 2 == 0 && 2 * k < |bs|
    ensures FromBytes(bs)[k] == UnitAt(bs, 2 * k)
    decreases k
  {
    if k > 0 {
      UnitOfBytes(bs[2..], k - 1);
    }
  }

  /** The low byte of every unit comes first, on the way out and on the way back. */
  lemma {:induction false} LowByteFirst(us: seq<Unit>, i: nat)
    requires i < |us|
    ensures |Bytes(us)| == 2 * |us| && Bytes(us)[2 * i] == us[i] % 256 && Bytes(us)[2 * i + 1] == us[i] / 256
    decreases |us|
  {
    var first, rest := [us[0] % 256, us[0] / 256], Bytes(us[1..]);
    assert Bytes(us) == first + rest;
    if |us| > 1 {
      LowByteFirst(us[1..], if i > 0 then i - 1 else 0);
    }
    if i > 0 {
      assert us[1..][i - 1] == us[i];
    }
  }
}
