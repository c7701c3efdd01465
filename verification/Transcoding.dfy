/** What UTF16ToUTF8Bytes makes of any sequence of UTF-16 units, well formed or not. */
module Transcoding {
  import opened Options
  import opened Unicode

  /**
  The characters that are written: up to the first NUL unit that is met; a lone surrogate becomes the replacement
  character, but a high surrogate followed by anything except a low one is dropped together with what follows it.
  */
  function Runes(us: seq<Unit>): seq<int> {
    if us == [] || us[0] == 0 then []
    else if !IsHigh(us[0]) && !IsLow(us[0]) then [us[0]] + Runes(us[1..])
    else if IsHigh(us[0]) && |us| > 1 then
      (if IsLow(us[1]) then [DecodePair(us[0], us[1])] else []) + Runes(us[2..])
    else [Replacement] + Runes(us[1..])
  }

  lemma {:induction false} RunesAreScalars(us: seq<Unit>)
    ensures AllScalars(Runes(us))
    decreases |us|
  {
    if us != [] && us[0] != 0 {
      RunesAreScalars(us[1..]);
      if |us| > 1 { RunesAreScalars(us[2..]); }
    }
  }

  /** Every output is well-formed UTF-8, and reads back as the characters written. */
  lemma OutputWellFormed(us: seq<Unit>)
    ensures DecodeUtf8(Utf8(Runes(us))) == Some(Runes(us))
  {
    RunesAreScalars(us);
    DecodeOfUtf8(Runes(us));
  }

  lemma RuneSize(r: int)
    ensures |EncodeRune(r)| <= 4
    ensures r < 0x1_0000 ==> |EncodeRune(r)| <= 3
  {
  }

  /** At most three bytes are written for every unit, that is for every two bytes, read. */
  lemma {:induction false} OutputBound(us: seq<Unit>)
    ensures |Utf8(Runes(us))| <= 3 * |us|
    decreases |us|
  {
    if us != [] && us[0] != 0 {
      if IsHigh(us[0]) && |us| > 1 {
        OutputBound(us[2..]);
        if IsLow(us[1]) {
          RuneSize(DecodePair(us[0], us[1]));
          Utf8Concat([DecodePair(us[0], us[1])], Runes(us[2..]));
          assert Utf8([DecodePair(us[0], us[1])]) == EncodeRune(DecodePair(us[0], us[1])) + Utf8([]);
        }
        assert [] + Runes(us[2..]) == Runes(us[2..]);
      } else {
        var r := if IsHigh(us[0]) || IsLow(us[0]) then Replacement else us[0];
        OutputBound(us[1..]);
        RuneSize(r);
        Utf8Concat([r], Runes(us[1..]));
        assert Utf8([r]) == EncodeRune(r) + Utf8([]);
      }
    }
  }

  // ---------- round trip ----------

  lemma UnitsOfRune(r: int)
    requires IsScalar(r)
    ensures r < 0x1_0000 ==> Units(r) == [r] && !IsHigh(r) && !IsLow(r)
    ensures r >= 0x1_0000 ==>
              |Units(r)| == 2 && IsHigh(Units(r)[0]) && IsLow(Units(r)[1]) && DecodePair(Units(r)[0], Units(r)[1]) == r
  {
  }

  function BeforeNul(rs: seq<int>): seq<int> {
    if rs == [] || rs[0] == 0 then [] else [rs[0]] + BeforeNul(rs[1..])
  }

  /** Text comes back from UTF-16 up to its first NUL. */
  lemma {:induction false} RunesOfUtf16(rs: seq<int>)
    requires AllScalars(rs)
    ensures Runes(Utf16(rs)) == BeforeNul(rs)
  {
    if rs != [] {
      RunesOfUtf16(rs[1..]);
      UnitsOfRune(rs[0]);
      var first, rest := Units(rs[0]), Utf16(rs[1..]);
      var us := first + rest;
      assert us[|first|..] == rest;
      if rs[0] >= 0x1_0000 {
        assert us[0] == first[0] && us[1] == first[1];
        assert us[2..] == rest;
      } else {
        assert us[1..] == rest;
      }
    }
  }

  lemma {:induction false} BeforeNulIs(rs: seq<int>)
    ensures 0 !in BeforeNul(rs) && (0 !in rs ==> BeforeNul(rs) == rs) && (AllScalars(rs) ==> AllScalars(BeforeNul(rs)))
  {
    if rs != [] {
      BeforeNulIs(rs[1..]);
      assert [rs[0]] + rs[1..] == rs;
    }
  }

  /** StringToUTF16Bytes of a text given as the bytes of a Go string. */
  function StringToUTF16Bytes(text: seq<Byte>): seq<Byte> {
    Bytes(Utf16(RunesOfText(text)))
  }

  /** The bytes that UTF16BytesToString returns for an input of even length. */
  function Transcoded(bytes: seq<Byte>): seq<Byte>
    requires |bytes| % 2 == 0
  {
    Utf8(Runes(FromBytes(bytes)))
  }

  /** Every text comes back from UTF-16 bytes up to its first NUL, with ill-formed bytes replaced. */
  lemma RoundTrip(text: seq<Byte>)
    ensures |StringToUTF16Bytes(text)| % 2 == 0
    ensures Transcoded(StringToUTF16Bytes(text)) == Utf8(BeforeNul(RunesOfText(text)))
  {
    TextIsScalars(text);
    RunesOfUtf16(RunesOfText(text));
    BytesRoundTrip(Utf16(RunesOfText(text)));
  }

  /** So it comes back as it was exactly when it is well formed and has no NUL. */
  lemma RoundTripIff(text: seq<Byte>)
    ensures |StringToUTF16Bytes(text)| % 2 == 0
    ensures Transcoded(StringToUTF16Bytes(text)) == text <==> DecodeUtf8(text).Some? && 0 !in text
  {
    var rs := RunesOfText(text);
    RoundTrip(text);
    TextIsScalars(text);
    BeforeNulIs(rs);
    NulIsNul(text);
    var back := Utf8(BeforeNul(rs));
    DecodeOfUtf8(BeforeNul(rs));
    TextIsDecoded(back);
    NulIsNul(back);
    if DecodeUtf8(text).Some? && 0 !in text {
      TextIsDecoded(text);
      Utf8OfDecode(text);
    }
  }

  lemma BytesRoundTrip(us: seq<Unit>)
    ensures |Bytes(us)| % 2 == 0 && Transcoded(Bytes(us)) == Utf8(Runes(us))
  {
    FromBytesOfBytes(us);
    TranscodedUnits(Bytes(us), us, Runes(us));
  }

  lemma TranscodedUnits(bytes: seq<Byte>, us: seq<Unit>, rs: seq<int>)
    requires |bytes| % 2 == 0 && FromBytes(bytes) == us && Runes(us) == rs
    ensures Transcoded(bytes) == Utf8(rs)
  {
  }

  // ---------- broken pairs ----------

  /** A high surrogate stands before a unit that is not a low one. */
  predicate BrokenAt(us: seq<Unit>, i: nat) {
    i + 1 < |us| && IsHigh(us[i]) && !IsLow(us[i + 1])
  }

  ghost predicate Broken(us: seq<Unit>) {
    exists i: nat :: BrokenAt(us, i)
  }

  function UpToNul(us: seq<Unit>): seq<Unit> {
    if us == [] || us[0] == 0 then [] else [us[0]] + UpToNul(us[1..])
  }

  /** Without a broken pair before the first NUL the output is the standard decoding of what stands before it. */
  lemma {:induction false} UnbrokenDecodes(us: seq<Unit>)
    requires forall i: nat :: i < |UpToNul(us)| ==> !BrokenAt(us, i)
    ensures Runes(us) == DecodeUtf16(UpToNul(us))
    decreases |us|
  {
    if us != [] && us[0] != 0 {
      var cut := UpToNul(us);
      assert cut[1..] == UpToNul(us[1..]);
      forall i: nat | i < |UpToNul(us[1..])| ensures !BrokenAt(us[1..], i) {
        assert !BrokenAt(us, i + 1);
      }
      UnbrokenDecodes(us[1..]);
      if IsHigh(us[0]) && |us| > 1 {
        assert !BrokenAt(us, 0);
        assert us[1..][1..] == us[2..];
        assert cut[2..] == UpToNul(us[2..]);
        forall i: nat | i < |UpToNul(us[2..])| ensures !BrokenAt(us[2..], i) {
          assert !BrokenAt(us, i + 2);
        }
        UnbrokenDecodes(us[2..]);
      }
    }
  }

  /** Without NUL the standard decoding is at least as long, and longer as soon as a pair is broken. */
  lemma {:induction false} BrokenIsShorter(us: seq<Unit>)
    requires 0 !in us
    ensures |Runes(us)| <= |DecodeUtf16(us)|
    ensures Broken(us) ==> |Runes(us)| < |DecodeUtf16(us)|
    decreases |us|
  {
    if us == [] {
    } else if IsHigh(us[0]) && |us| > 1 {
      BrokenIsShorter(us[2..]);
      if IsLow(us[1]) {
        BrokenRest(us, 2);
      } else {
        BrokenIsShorter(us[1..]);
        if IsHigh(us[1]) && |us| > 2 && IsLow(us[2]) {
          BrokenIsShorter(us[3..]);
          assert us[1..][2..] == us[3..] && us[2..][1..] == us[3..];
        } else {
          assert us[1..][1..] == us[2..];
        }
      }
    } else {
      BrokenIsShorter(us[1..]);
      BrokenRest(us, 1);
    }
  }

  /** What is broken behind units that are fine is broken in the rest. */
  lemma BrokenRest(us: seq<Unit>, k: nat)
    requires 1 <= k <= 2 && k <= |us| && !BrokenAt(us, 0) && (k == 2 ==> !IsHigh(us[1]))
    ensures Broken(us) ==> Broken(us[k..])
  {
    if Broken(us) {
      var i: nat :| BrokenAt(us, i);
      assert i >= k;
      assert BrokenAt(us[k..], i - k);
    }
  }

  /** On input without NUL the code agrees with the standard decoding exactly when no pair is broken. */
  lemma StandardIffUnbroken(us: seq<Unit>)
    requires 0 !in us
    ensures Runes(us) == DecodeUtf16(us) <==> !Broken(us)
  {
    BrokenIsShorter(us);
    if !Broken(us) {
      UnbrokenDecodes(us);
      NoNul(us);
    }
  }

  lemma {:induction false} NoNul(us: seq<Unit>)
    requires 0 !in us
    ensures UpToNul(us) == us
  {
    if us != [] {
      NoNul(us[1..]);
    }
  }

  /** A broken pair swallows a letter, and even the terminating NUL, so that what follows is written too. */
  lemma BrokenPairSwallows()
    ensures Runes([0xD800, 0x41, 0x42]) == [0x42]
    ensures Runes([0xD800, 0, 0x41]) == [0x41]
  {
    var a: seq<Unit>, b: seq<Unit> := [0xD800, 0x41, 0x42], [0xD800, 0, 0x41];
    assert a[2..] == [0x42] && b[2..] == [0x41];
    assert a[2..][1..] == [] && b[2..][1..] == [];
    assert Runes(a[2..]) == [0x42] + Runes([]) && Runes(b[2..]) == [0x41] + Runes([]);
  }

  /** Behind a swallowed NUL the output can even agree with the standard decoding by accident. */
  lemma NulHidesABrokenPair()
    ensures var us := [0xD800, 0, 0xFFFD]; BrokenAt(us, 0) && Runes(us) == DecodeUtf16(UpToNul(us))
  {
    var us: seq<Unit> := [0xD800, 0, 0xFFFD];
    assert us[2..] == [0xFFFD] && us[2..][1..] == [];
    assert Runes(us[2..]) == [0xFFFD];
    assert us[1..][0] == 0;
    assert UpToNul(us) == [0xD800];
    assert DecodeUtf16([0xD800]) == [0xFFFD];
  }
}
