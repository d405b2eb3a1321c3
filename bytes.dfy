/** Machine-level building blocks: fixed-width unsigned integers, their
    little-endian byte layout (the layout of a C struct on the ARM target),
    byte files written at an offset, and concatenation of chunks. */
module Bytes {

  type byte = x: int | 0 <= x < 0x100
  type uint16 = x: int | 0 <= x < 0x1_0000
  type uint32 = x: int | 0 <= x < 0x1_0000_0000

  /** 2^32: C `unsigned` arithmetic is taken modulo this. */
  const U32Modulus: int := 0x1_0000_0000

  // ----- little-endian layout -----

  function Le16(x: uint16): (r: seq<byte>)
    ensures |r| == 2
  {
    [x % 0x100, x / 0x100]
  }

  function FromLe16(b: seq<byte>): (x: uint16)
    requires |b| == 2
  {
    b[0] as int + 0x100 * b[1] as int
  }

  function Le32(x: uint32): (r: seq<byte>)
    ensures |r| == 4
  {
    Le16(x % 0x1_0000) + Le16(x / 0x1_0000)
  }

  function FromLe32(b: seq<byte>): (x: uint32)
    requires |b| == 4
  {
    FromLe16(b[..2]) as int + 0x1_0000 * FromLe16(b[2..]) as int
  }

  lemma Le16RoundTrip(x: uint16)
    ensures FromLe16(Le16(x)) == x
  {
  }

  lemma FromLe16RoundTrip(b: seq<byte>)
    requires |b| == 2
    ensures Le16(FromLe16(b)) == b
  {
    var v: int := b[0] as int + 0x100 * b[1] as int;
    assert v % 0x100 == b[0] && v / 0x100 == b[1];
  }

  lemma Le32RoundTrip(x: uint32)
    ensures FromLe32(Le32(x)) == x
  {
    var lo, hi := x % 0x1_0000, x / 0x1_0000;
    Le16RoundTrip(lo);
    Le16RoundTrip(hi);
    assert Le32(x)[..2] == Le16(lo) && Le32(x)[2..] == Le16(hi);
  }

  lemma FromLe32RoundTrip(b: seq<byte>)
    requires |b| == 4
    ensures Le32(FromLe32(b)) == b
  {
    var lo, hi := FromLe16(b[..2]), FromLe16(b[2..]);
    var v: int := lo as int + 0x1_0000 * hi as int;
    assert v % 0x1_0000 == lo && v / 0x1_0000 == hi;
    FromLe16RoundTrip(b[..2]);
    FromLe16RoundTrip(b[2..]);
    assert b == b[..2] + b[2..];
  }

  // ----- files as byte sequences -----

  /** The contents of a file after writing `d` at offset `pos`: the bytes
      there are replaced and the file grows when the write runs past its end. */
  function WriteAt(f: seq<byte>, pos: nat, d: seq<byte>): (r: seq<byte>)
    requires pos <= |f|
    ensures |r| == if pos + |d| < |f| then |f| else pos + |d|
    ensures r[..pos] == f[..pos] && r[pos..pos + |d|] == d
    ensures r[pos + |d|..] == f[if pos + |d| < |f| then pos + |d| else |f|..]
  {
    f[..pos] + d + (if pos + |d| < |f| then f[pos + |d|..] else [])
  }

  /** Writing `d1` at the start of a file and then `d2` right after it
      leaves the same file as writing `d1 + d2` at once. */
  lemma WriteAtSequential(f: seq<byte>, d1: seq<byte>, d2: seq<byte>)
    ensures WriteAt(WriteAt(f, 0, d1), |d1|, d2) == WriteAt(f, 0, d1 + d2)
  {
    var a := WriteAt(WriteAt(f, 0, d1), |d1|, d2);
    var b := WriteAt(f, 0, d1 + d2);
    assert |a| == |b|;
    forall k | 0 <= k < |a| ensures a[k] == b[k] {
      if k < |d1| {
        assert a[k] == WriteAt(f, 0, d1)[..|d1|][k];
      } else if k < |d1| + |d2| {
        assert a[k] == a[|d1|..|d1| + |d2|][k - |d1|];
        assert b[k] == b[0..|d1| + |d2|][k];
      } else {
        assert a[k] == a[|d1| + |d2|..][k - |d1| - |d2|];
        assert b[k] == b[|d1| + |d2|..][k - |d1| - |d2|];
      }
    }
  }

  /** Overwriting the first bytes of a file with a block of the same length
      as the block previously written there replaces just that block. */
  lemma WriteAtOverwrite(f: seq<byte>, h1: seq<byte>, h2: seq<byte>, rest: seq<byte>)
    requires |h1| == |h2|
    ensures WriteAt(WriteAt(f, 0, h1 + rest), 0, h2) == WriteAt(f, 0, h2 + rest)
  {
    var a := WriteAt(WriteAt(f, 0, h1 + rest), 0, h2);
    var b := WriteAt(f, 0, h2 + rest);
    assert |a| == |b|;
    forall k | 0 <= k < |a| ensures a[k] == b[k] {
      if k < |h2| {
        assert a[k] == a[0..|h2|][k];
        assert b[k] == b[0..|h2| + |rest|][k];
      } else if k < |h2| + |rest| {
        assert a[k] == a[|h2|..][k - |h2|];
        assert b[k] == b[0..|h2| + |rest|][k];
      } else {
        assert a[k] == a[|h2|..][k - |h2|];
        assert b[k] == b[|h2| + |rest|..][k - |h2| - |rest|];
      }
    }
  }

  // ----- chunk logs -----

  /** The bytes of a sequence of chunks, in order. */
  function Flatten(chunks: seq<seq<byte>>): (bytes: seq<byte>)
  {
    if chunks == [] then [] else chunks[0] + Flatten(chunks[1..])
  }

  lemma {:induction false} FlattenAppend(a: seq<seq<byte>>, b: seq<seq<byte>>)
    ensures Flatten(a + b) == Flatten(a) + Flatten(b)
  {
    if a == [] {
      assert a + b == b;
    } else {
      assert (a + b)[1..] == a[1..] + b;
      FlattenAppend(a[1..], b);
    }
  }

  /** `n` back-to-back copies of `s`. */
  function Repeat<T>(s: seq<T>, n: nat): (r: seq<T>)
  {
    if n == 0 then [] else s + Repeat(s, n - 1)
  }

  lemma {:induction false} FlattenRepeat(s: seq<seq<byte>>, n: nat)
    ensures Flatten(Repeat(s, n)) == Repeat(Flatten(s), n)
  {
    if n > 0 {
      FlattenAppend(s, Repeat(s, n - 1));
      FlattenRepeat(s, n - 1);
    }
  }
}
