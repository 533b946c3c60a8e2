/** Numbers as bytes: utils/util.go (variable-length integers), utils/crypto.go (32-byte integers), encoding/binary. */
module ByteCodec {
  import opened Primitives

  type Byte = b: int | 0 <= b < 256

  function Pow256(n: nat): (r: nat)
    ensures r >= 1
  {
    if n == 0 then 1 else 256 * Pow256(n - 1)
  }

  // ---------- Big and little endian ----------

  /** The `width` low bytes of `n`, most significant first. */
  function BigEndian(n: nat, width: nat): (r: seq<Byte>)
    ensures |r| == width
  {
    if width == 0 then [] else BigEndian(n / 256, width - 1) + [n % 256]
  }

  function FromBigEndian(s: seq<Byte>): nat
    decreases |s|
  {
    if s == [] then 0 else 256 * FromBigEndian(s[..|s| - 1]) + s[|s| - 1]
  }

  lemma {:induction false} BigEndianReads(n: nat, width: nat)
    requires n < Pow256(width)
    ensures FromBigEndian(BigEndian(n, width)) == n
    decreases width
  {
    if width > 0 {
      BigEndianReads(n / 256, width - 1);
      var s := BigEndian(n, width);
      assert s[..|s| - 1] == BigEndian(n / 256, width - 1);
    }
  }

  lemma {:induction false} BigEndianWrites(s: seq<Byte>)
    ensures FromBigEndian(s) < Pow256(|s|)
    ensures BigEndian(FromBigEndian(s), |s|) == s
    decreases |s|
  {
    if s != [] {
      BigEndianWrites(s[..|s| - 1]);
      assert s == s[..|s| - 1] + [s[|s| - 1]];
    }
  }

  /** The `width` low bytes of `n`, least significant first. */
  function LittleEndian(n: nat, width: nat): (r: seq<Byte>)
    ensures |r| == width
  {
    if width == 0 then [] else [n % 256] + LittleEndian(n / 256, width - 1)
  }

  function FromLittleEndian(s: seq<Byte>): nat
    decreases |s|
  {
    if s == [] then 0 else s[0] + 256 * FromLittleEndian(s[1..])
  }

  lemma {:induction false} LittleEndianReads(n: nat, width: nat)
    requires n < Pow256(width)
    ensures FromLittleEndian(LittleEndian(n, width)) == n
    decreases width
  {
    if width > 0 {
      LittleEndianReads(n / 256, width - 1);
      assert LittleEndian(n, width)[1..] == LittleEndian(n / 256, width - 1);
    }
  }

  lemma {:induction false} LittleEndianWrites(s: seq<Byte>)
    ensures FromLittleEndian(s) < Pow256(|s|)
    ensures LittleEndian(FromLittleEndian(s), |s|) == s
    decreases |s|
  {
    if s != [] {
      LittleEndianWrites(s[1..]);
      assert s == [s[0]] + s[1..];
    }
  }

  // ---------- Variable-length integers ----------

  /** Number of bytes after the discriminant. */
  function Extra(discriminant: Byte): nat {
    if discriminant == 0xff then 8 else if discriminant == 0xfe then 4 else if discriminant == 0xfd then 2 else 0
  }

  /** The smallest value each discriminant may carry. */
  function Least(discriminant: Byte): nat {
    if discriminant == 0xff then 0x1_0000_0000 else if discriminant == 0xfe then 0x1_0000 else 0xfd
  }

  function Discriminant(val: nat): Byte {
    if val < 0xfd then val else if val <= 0xffff then 0xfd else if val <= 0xffff_ffff then 0xfe else 0xff
  }

  function VarInt(val: nat): seq<Byte> {
    [Discriminant(val)] + LittleEndian(val, Extra(Discriminant(val)))
  }

  function ParseVarInt(s: seq<Byte>): Option<(nat, seq<Byte>)> {
    if s == [] then None
    else if Extra(s[0]) == 0 then Some((s[0], s[1..]))
    else
      var width := Extra(s[0]);
      if |s| < 1 + width then None
      else
        var val := FromLittleEndian(s[1..1 + width]);
        if val < Least(s[0]) then None else Some((val, s[1 + width..]))
  }

  lemma Pow256Values()
    ensures Pow256(2) == 0x1_0000 && Pow256(4) == 0x1_0000_0000 && Pow256(8) == UINT64
  {
    assert Pow256(1) == 256;
    assert Pow256(2) == 256 * Pow256(1);
    assert Pow256(3) == 256 * Pow256(2);
    assert Pow256(4) == 256 * Pow256(3);
    assert Pow256(5) == 256 * Pow256(4);
    assert Pow256(6) == 256 * Pow256(5);
    assert Pow256(7) == 256 * Pow256(6);
    assert Pow256(8) == 256 * Pow256(7);
  }

  /** The reader inverts the writer on every unsigned 64-bit value, whatever follows. */
  lemma VarIntReads(val: nat, rest: seq<Byte>)
    requires val < UINT64
    ensures ParseVarInt(VarInt(val) + rest) == Some((val, rest))
  {
    Pow256Values();
    var width := Extra(Discriminant(val));
    var s := VarInt(val) + rest;
    assert s[1 + width..] == rest;
    if width > 0 {
      LittleEndianReads(val, width);
      assert s[1..1 + width] == LittleEndian(val, width);
    }
  }

  /** The reader accepts only what the writer writes: the unique shortest encoding. */
  lemma VarIntUnique(s: seq<Byte>)
    requires ParseVarInt(s).Some?
    ensures var r := ParseVarInt(s).value; r.0 < UINT64 && s == VarInt(r.0) + r.1
  {
    Pow256Values();
    var r := ParseVarInt(s).value;
    var width := Extra(s[0]);
    if width > 0 {
      LittleEndianWrites(s[1..1 + width]);
      assert Discriminant(r.0) == s[0];
    }
    assert s == [s[0]] + s[1..1 + width] + s[1 + width..];
  }

  // ---------- Buffers ----------

  function Zeros(n: nat): (r: seq<Byte>)
    ensures |r| == n
  {
    seq(n, _ => 0)
  }

  /** bytes.Buffer.Read into a zeroed slice of `n` bytes: a short buffer fills a prefix only. */
  function TakePadded(s: seq<Byte>, n: nat): (r: seq<Byte>)
    ensures |r| == n
  {
    if n <= |s| then s[..n] else s + Zeros(n - |s|)
  }

  function DropUpTo(s: seq<Byte>, n: nat): seq<Byte> {
    if n <= |s| then s[n..] else []
  }

  class Buffer {
    var data: seq<Byte>

    constructor (data: seq<Byte>)
      ensures this.data == data
    {
      this.data := data;
    }

    method Write(s: seq<Byte>)
      modifies this
      ensures data == old(data) + s
    {
      data := data + s;
    }

    /** The bytes read, padded, and how many of them there really were. */
    method Read(n: nat) returns (s: seq<Byte>, got: nat)
      modifies this
      ensures s == TakePadded(old(data), n) && data == DropUpTo(old(data), n)
      ensures got == if n <= |old(data)| then n else |old(data)|
    {
      got := if n <= |data| then n else |data|;
      s := TakePadded(data, n);
      data := DropUpTo(data, n);
    }

    method WriteVarInt(val: nat)
      requires val < UINT64
      modifies this
      ensures data == old(data) + VarInt(val)
    {
      if val < 0xfd {
        Write([val]);
      } else if val <= 0xffff {
        Write([0xfd]);
        Write(LittleEndian(val, 2));
      } else if val <= 0xffff_ffff {
        Write([0xfe]);
        Write(LittleEndian(val, 4));
      } else {
        Write([0xff]);
        Write(LittleEndian(val, 8));
      }
    }

    method ReadVarInt() returns (r: Option<nat>)
      modifies this
      ensures r.Some? <==> ParseVarInt(old(data)).Some?
      ensures r.Some? ==> ParseVarInt(old(data)) == Some((r.value, data))
    {
      var first, got := Read(1);
      if got != 1 {
        return None;
      }
      var d := first[0];
      if d == 0xff || d == 0xfe || d == 0xfd {
        var width := if d == 0xff then 8 else if d == 0xfe then 4 else 2;
        assert data == old(data)[1..];
        var s, n := Read(width);
        if n != width {
          return None;
        }
        assert s == old(data)[1..1 + width];
        var rv := FromLittleEndian(s);
        var least := if d == 0xff then 0x1_0000_0000 else if d == 0xfe then 0x1_0000 else 0xfd;
        if rv < least {
          return None;
        }
        return Some(rv);
      }
      return Some(d);
    }
  }

  // ---------- 32-byte integers ----------

  function Abs(i: int): nat { if i < 0 then -i else i }

  /** big.Int.Bytes: the shortest big-endian form of the absolute value. */
  function ShortestBytes(n: nat): (r: seq<Byte>)
    ensures FromBigEndian(r) == n
  {
    if n == 0 then [] else ShortestBytes(n / 256) + [n % 256]
  }

  lemma {:induction false} PaddingKeepsValue(k: nat, s: seq<Byte>)
    ensures FromBigEndian(Zeros(k) + s) == FromBigEndian(s)
    decreases |s|, k
  {
    var t := Zeros(k) + s;
    if s != [] {
      assert t[..|t| - 1] == Zeros(k) + s[..|s| - 1];
      PaddingKeepsValue(k, s[..|s| - 1]);
    } else if k > 0 {
      assert t[..|t| - 1] == Zeros(k - 1) + [];
      PaddingKeepsValue(k - 1, []);
      assert t[|t| - 1] == 0;
    }
  }

  lemma {:induction false} ShortestFits(n: nat, width: nat)
    requires n < Pow256(width)
    ensures |ShortestBytes(n)| <= width
    decreases width
  {
    if n > 0 && width > 0 {
      ShortestFits(n / 256, width - 1);
    }
  }

  lemma PaddedIsBigEndian(n: nat, width: nat)
    requires n < Pow256(width)
    ensures |ShortestBytes(n)| <= width
    ensures Zeros(width - |ShortestBytes(n)|) + ShortestBytes(n) == BigEndian(n, width)
  {
    ShortestFits(n, width);
    var s := Zeros(width - |ShortestBytes(n)|) + ShortestBytes(n);
    PaddingKeepsValue(width - |ShortestBytes(n)|, ShortestBytes(n));
    BigEndianWrites(s);
  }

  method FillRight(data: seq<Byte>, width: nat) returns (buf: array<Byte>)
    requires |data| <= width
    ensures buf[..] == Zeros(width - |data|) + data
  {
    buf := new Byte[width](_ => 0);
    var pad := width - |data|;
    for k := 0 to pad
      invariant forall j :: 0 <= j < k ==> buf[j] == 0
    {
      buf[k] := 0;
    }
    for k := pad to width
      invariant forall j :: 0 <= j < pad ==> buf[j] == 0
      invariant forall j :: pad <= j < k ==> buf[j] == data[j - pad]
    {
      buf[k] := data[k - width + |data|];
    }
  }

  /** Values of 2^256 and more make the source index out of range; negative values lose their sign. */
  method BigIntTo32Bytes(i: int) returns (buf: array<Byte>)
    requires Abs(i) < Pow256(32)
    ensures buf[..] == BigEndian(Abs(i), 32)
  {
    PaddedIsBigEndian(Abs(i), 32);
    buf := FillRight(ShortestBytes(Abs(i)), 32);
  }

  /** The 32-byte writer and reader are inverse exactly on the non-negative values. */
  lemma BigIntRoundTripIff(i: int)
    requires Abs(i) < Pow256(32)
    ensures FromBigEndian(BigEndian(Abs(i), 32)) == i <==> i >= 0
  {
    BigEndianReads(Abs(i), 32);
  }

  // ---------- Signed integers ----------

  /** Two's complement. */
  function ToUnsigned(i: int, width: nat): nat
    requires 0 <= i + Pow256(width)
  {
    if i < 0 then i + Pow256(width) else i
  }

  function ToSigned(n: nat, width: nat): int {
    if 2 * n < Pow256(width) then n else n - Pow256(width)
  }

  predicate Signed(i: int, width: nat) { 0 <= 2 * i + Pow256(width) < 2 * Pow256(width) }

  lemma SignedReads(i: int, width: nat)
    requires Signed(i, width)
    ensures 0 <= ToUnsigned(i, width) < Pow256(width)
    ensures ToSigned(FromBigEndian(BigEndian(ToUnsigned(i, width), width)), width) == i
    ensures ToSigned(FromLittleEndian(LittleEndian(ToUnsigned(i, width), width)), width) == i
  {
    BigEndianReads(ToUnsigned(i, width), width);
    LittleEndianReads(ToUnsigned(i, width), width);
  }
}
