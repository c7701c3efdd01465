/** The growable byte buffer, the pool it is reused from, and the transcoding that writes into it. */
module ByteBuffers {
  import opened Options
  import opened Unicode
  import opened Transcoding

  /** `store` is the array behind the slice `buf`; `length` is the slice's length, `store.Length` its capacity. */
  class ByteBuffer {
    var store: array<Byte>
    var length: nat
    var offset: nat

    ghost predicate Valid()
      reads this
    {
      offset <= length <= store.Length
    }

    ghost function Contents(): seq<Byte>
      requires Valid()
      reads this, store
    {
      store[..offset]
    }

    constructor (initialSize: nat)
      ensures Valid() && Contents() == [] && fresh(store)
    {
      store := new Byte[initialSize](_ => 0);
      length, offset := initialSize, 0;
    }

    /** Appends all of `p`, growing the buffer when it is too short. */
    method Write(p: seq<Byte>) returns (n: nat)
      requires Valid()
      modifies this, store
      ensures Valid() && (store == old(store) || fresh(store))
      ensures Contents() == old(Contents()) + p
      ensures n == |p|
    {
      if length < offset + |p| {
        var spaceNeeded := length - offset + |p|;
        var larger := new Byte[2 * length + spaceNeeded](_ => 0);
        forall i | 0 <= i < offset {
          larger[i] := store[i];
        }
        store, length := larger, larger.Length;
      }
      n := Copied(length - offset, |p|);
      forall i | 0 <= i < n {
        store[offset + i] := p[i];
      }
      offset := offset + n;
    }

    /** Empties the buffer and makes the whole store available again. */
    method Reset()
      requires Valid()
      modifies this
      ensures Valid() && Contents() == [] && store == old(store) && length == store.Length
    {
      offset, length := 0, store.Length;
    }

    /** Makes room for `n` bytes; what they hold is old store or, in a new one, zero. */
    method Reserve(n: nat)
      requires Valid()
      modifies this
      ensures Valid() && offset == n && length == n && (store == old(store) || fresh(store))
      ensures Contents() == if n <= old(store.Length) then old(store[..])[..n] else seq(n, _ => 0)
    {
      offset := n;
      if n > store.Length {
        store := new Byte[n](_ => 0);
      }
      length := n;
    }
  }

  /** How many elements Go's copy moves. */
  function Copied(room: nat, size: nat): nat {
    if room < size then room else size
  }

  /** The buffers that wait for reuse; none of them shares its store with another. */
  class BufferPool {
    var waiting: set<ByteBuffer>

    ghost predicate Valid()
      reads this, waiting
    {
      && (forall b <- waiting :: b.Valid())
      && (forall b <- waiting, c <- waiting :: b != c ==> b.store != c.store)
    }

    constructor ()
      ensures Valid() && waiting == {}
    {
      waiting := {};
    }

    /** A waiting buffer or a new one, emptied either way. */
    method Take() returns (b: ByteBuffer)
      requires Valid()
      modifies this, waiting
      ensures Valid() && b.Valid() && b.Contents() == []
      ensures b !in waiting && forall c <- waiting :: c.store != b.store
      ensures waiting <= old(waiting)
      ensures (fresh(b) && fresh(b.store)) || (b in old(waiting) && b.store == old(b.store))
    {
      var reuse := *;
      if reuse && waiting != {} {
        b :| b in waiting;
        waiting := waiting - {b};
      } else {
        b := new ByteBuffer(1024);
      }
      b.Reset();
    }

    method Free(b: ByteBuffer)
      requires Valid() && b.Valid() && b !in waiting && forall c <- waiting :: c.store != b.store
      modifies this
      ensures Valid() && waiting == old(waiting) + {b}
    {
      waiting := waiting + {b};
    }
  }

  /** Writes `[rune]` as UTF-8. */
  method WriteRune(out: ByteBuffer, rune: int)
    requires out.Valid()
    modifies out, out.store
    ensures out.Valid() && (out.store == old(out.store) || fresh(out.store))
    ensures out.Contents() == old(out.Contents()) + Utf8([rune])
  {
    var n := out.Write(EncodeRune(rune));
    assert Utf8([rune]) == EncodeRune(rune) + Utf8([]);
  }

  /** What is left to write after `i` units. */
  ghost function Rest(us: seq<Unit>, i: nat): seq<Byte>
    requires i <= |us|
  {
    Utf8(Runes(us[i..]))
  }

  /** How many units the loop takes in one round, and what it writes for them. */
  function Taken(us: seq<Unit>, i: nat): nat
    requires i < |us|
  {
    if IsHigh(us[i]) && i + 1 < |us| then 2 else 1
  }

  function Put(us: seq<Unit>, i: nat): seq<Byte>
    requires i < |us|
  {
    if !IsHigh(us[i]) && !IsLow(us[i]) then Utf8([us[i]])
    else if Taken(us, i) == 1 then Utf8([Replacement])
    else if IsLow(us[i + 1]) then Utf8([DecodePair(us[i], us[i + 1])])
    else []
  }

  lemma RestAt(us: seq<Unit>, i: nat)
    requires i < |us| && us[i] != 0
    ensures Rest(us, i) == Put(us, i) + Rest(us, i + Taken(us, i))
  {
    var tail := us[i..];
    assert tail[1..] == us[i + 1..];
    if IsHigh(us[i]) && i + 1 < |us| {
      assert tail[2..] == us[i + 2..];
      if IsLow(us[i + 1]) {
        Utf8Concat([DecodePair(us[i], us[i + 1])], Runes(us[i + 2..]));
      } else {
        assert [] + Runes(us[i + 2..]) == Runes(us[i + 2..]);
      }
    } else {
      var r := if IsHigh(us[i]) || IsLow(us[i]) then Replacement else us[i];
      Utf8Concat([r], Runes(us[i + 1..]));
    }
  }

  lemma RestDone(us: seq<Unit>, k: nat)
    requires k <= |us| && (k < |us| ==> us[k] == 0)
    ensures Rest(us, k) == [] && Rest(us, 0) == Utf8(Runes(us))
  {
    assert us[0..] == us;
    assert Runes(us[k..]) == [];
  }

  /** Writing what unit `k` puts out leaves the rest after the units it takes. */
  lemma RestStep(us: seq<Unit>, k: nat, written: seq<Byte>)
    requires k < |us| && us[k] != 0
    ensures written + Rest(us, k) == written + Put(us, k) + Rest(us, k + Taken(us, k))
  {
    RestAt(us, k);
  }

  /** `us` are the units of `bytes`. */
  ghost predicate UnitsOf(bytes: seq<Byte>, us: seq<Unit>) {
    |bytes| == 2 * |us| && forall k: nat :: k < |us| ==> us[k] == UnitAt(bytes, 2 * k)
  }

  /** One round of the loop at unit `k`, which is not NUL. */
  method TranscodeUnit(bytes: seq<Byte>, ghost us: seq<Unit>, k: nat, out: ByteBuffer) returns (taken: nat)
    requires out.Valid() && UnitsOf(bytes, us) && k < |us| && us[k] != 0
    modifies out, out.store
    ensures out.Valid() && (out.store == old(out.store) || fresh(out.store))
    ensures taken == Taken(us, k)
    ensures out.Contents() == old(out.Contents()) + Put(us, k)
  {
    var v1 := UnitAt(bytes, 2 * k);
    taken := 1;
    if v1 < 0xD800 || 0xE000 <= v1 {
      WriteRune(out, v1);
    } else if 0xD800 <= v1 < 0xDC00 && |bytes| > 2 * k + 2 {
      var v2 := UnitAt(bytes, 2 * (k + 1));
      assert us[k + 1] == v2;
      if 0xDC00 <= v2 < 0xE000 {
        WriteRune(out, DecodePair(v1, v2));
      }
      taken := 2;
    } else {
      WriteRune(out, Replacement);
    }
  }

  /** The loop over the units of an input of even length, left at the first NUL unit it meets. */
  method TranscodeUnits(bytes: seq<Byte>, ghost us: seq<Unit>, out: ByteBuffer)
    requires out.Valid() && UnitsOf(bytes, us)
    modifies out, out.store
    ensures out.Valid() && (out.store == old(out.store) || fresh(out.store))
    ensures out.Contents() == old(out.Contents()) + Utf8(Runes(us))
  {
    ghost var all := out.Contents() + Rest(us, 0);
    var k := 0;
    while 2 * k < |bytes| && UnitAt(bytes, 2 * k) != 0
      invariant out.Valid() && (out.store == old(out.store) || fresh(out.store))
      invariant k <= |us| && out.Contents() + Rest(us, k) == all
      decreases |us| - k
    {
      RestStep(us, k, out.Contents());
      var taken := TranscodeUnit(bytes, us, k, out);
      k := k + taken;
    }
    RestDone(us, k);
  }

  /** Transcodes to the end of the input or to the first NUL unit it meets; an odd length is an error. */
  method UTF16ToUTF8Bytes(bytes: seq<Byte>, out: ByteBuffer) returns (ok: bool)
    requires out.Valid()
    modifies out, out.store
    ensures out.Valid() && (out.store == old(out.store) || fresh(out.store))
    ensures ok <==> |bytes| % 2 == 0
    ensures out.Contents() == old(out.Contents()) + if ok then Transcoded(bytes) else []
  {
    ok := |bytes| % 2 == 0;
    if ok {
      ghost var us := FromBytes(bytes);
      forall k: nat | k < |us| ensures us[k] == UnitAt(bytes, 2 * k) {
        UnitOfBytes(bytes, k);
      }
      TranscodeUnits(bytes, us, out);
    }
  }

  /** Decodes through a pooled buffer; the text does not depend on what the buffer held before. */
  method UTF16BytesToString(pool: BufferPool, bytes: seq<Byte>) returns (r: Option<seq<Byte>>)
    requires pool.Valid()
    modifies pool, pool.waiting, set b <- pool.waiting :: b.store
    ensures pool.Valid()
    ensures r == if |bytes| % 2 == 0 then Some(Transcoded(bytes)) else None
  {
    var b := pool.Take();
    var ok := UTF16ToUTF8Bytes(bytes, b);
    assert ok ==> [] + Transcoded(bytes) == Transcoded(bytes);
    r := if ok then Some(b.store[..b.offset]) else None;
    pool.Free(b);
  }

  /** Every well-formed text without NUL comes back from UTF-16 bytes, whatever the pool holds; no other text does. */
  method RoundTripThroughPool(pool: BufferPool, text: seq<Byte>) returns (back: Option<seq<Byte>>)
    requires pool.Valid()
    modifies pool, pool.waiting, set b <- pool.waiting :: b.store
    ensures pool.Valid() && back.Some?
    ensures back.value == text <==> DecodeUtf8(text).Some? && 0 !in text
  {
    RoundTripIff(text);
    back := UTF16BytesToString(pool, StringToUTF16Bytes(text));
  }
}
