/** The CRC-32 accumulator used to checksum generated binary codeplugs: a
    32-bit running value that each byte updates, readable at any point of
    the stream. The byte step is the table-driven reflected CRC-32 (generator
    polynomial 0x04C11DB7 of IEEE 802.3, bit-reversed to 0xEDB88320), started
    from 0xFFFFFFFF; the value read is the raw register, with no final
    complement. */
module Crc32 {

  const Polynomial: bv32 := 0xEDB8_8320
  const Seed: bv32 := 0xFFFF_FFFF

  /** One bit of the bit-serial shift register: shift right, and fold the
      polynomial in when the bit shifted out was set. */
  function ShiftBit(x: bv32): bv32
  {
    if x & 1 == 1 then (x >> 1) ^ Polynomial else x >> 1
  }

  /** `k` bits of the bit-serial shift register. */
  function Shift(x: bv32, k: nat): bv32
    decreases k
  {
    if k == 0 then x else Shift(ShiftBit(x), k - 1)
  }

  /** Entry `i` of the 256-entry lookup table. */
  function TableEntry(i: bv8): bv32
  {
    Shift(i as bv32, 8)
  }

  /** `update(c)`: the table-driven step folding byte `b` into `crc`. */
  function Step(crc: bv32, b: bv8): bv32
  {
    TableEntry(((crc ^ b as bv32) & 0xFF) as bv8) ^ (crc >> 8)
  }

  /** The register after folding `bytes`, in order, into `state`. */
  function Crc(state: bv32, bytes: seq<bv8>): bv32
  {
    if bytes == [] then state
    else Step(Crc(state, bytes[..|bytes| - 1]), bytes[|bytes| - 1])
  }

  /** The checksum of a whole byte sequence, from a fresh accumulator. */
  function Checksum(bytes: seq<bv8>): bv32
  {
    Crc(Seed, bytes)
  }

  /** Feeding `a` and then `b` leaves the same register as feeding `a + b`. */
  lemma {:induction false} CrcConcat(state: bv32, a: seq<bv8>, b: seq<bv8>)
    ensures Crc(state, a + b) == Crc(Crc(state, a), b)
  {
    if b == [] {
      assert a + b == a;
    } else {
      assert (a + b)[..|a + b| - 1] == a + b[..|b| - 1];
      CrcConcat(state, a, b[..|b| - 1]);
    }
  }

  /** The checksum of a concatenation is the checksum of the second part
      continued from the register left by the first. */
  lemma ChecksumConcat(a: seq<bv8>, b: seq<bv8>)
    ensures Checksum(a + b) == Crc(Checksum(a), b)
  {
    CrcConcat(Seed, a, b);
  }

  /** The ASCII bytes of "123456789", the customary CRC check input. */
  const CheckInput: seq<bv8> := [0x31, 0x32, 0x33, 0x34, 0x35, 0x36, 0x37, 0x38, 0x39]

  /** Feeding one more byte is one more step. */
  lemma CrcSnoc(state: bv32, s: seq<bv8>, b: bv8)
    ensures Crc(state, s + [b]) == Step(Crc(state, s), b)
  {
  }

  /** The register after each byte of the check input "123456789". */
  lemma CheckSteps()
    ensures Step(0xFFFF_FFFF, 0x31) == 0x7C23_1048
    ensures Step(0x7C23_1048, 0x32) == 0xB0AC_BB32
    ensures Step(0xB0AC_BB32, 0x33) == 0x77B7_9C2D
    ensures Step(0x77B7_9C2D, 0x34) == 0x641C_1F5C
    ensures Step(0x641C_1F5C, 0x35) == 0x340A_C5E3
    ensures Step(0x340A_C5E3, 0x36) == 0xF68D_2C9E
    ensures Step(0xF68D_2C9E, 0x37) == 0xAFFC_9660
    ensures Step(0xAFFC_9660, 0x38) == 0x651F_2550
    ensures Step(0x651F_2550, 0x39) == 0x340B_C6D9
  {
  }

  /** The register after "12345", the first half of the check input. */
  lemma CheckFirstHalf()
    ensures Crc(Seed, CheckInput[..5]) == 0x340A_C5E3
  {
    CheckSteps();
    var s: seq<bv8> := [];
    CrcSnoc(Seed, s, 0x31);
    s := s + [0x31];
    assert Crc(Seed, s) == 0x7C23_1048;
    CrcSnoc(Seed, s, 0x32);
    s := s + [0x32];
    assert Crc(Seed, s) == 0xB0AC_BB32;
    CrcSnoc(Seed, s, 0x33);
    s := s + [0x33];
    assert Crc(Seed, s) == 0x77B7_9C2D;
    CrcSnoc(Seed, s, 0x34);
    s := s + [0x34];
    assert Crc(Seed, s) == 0x641C_1F5C;
    CrcSnoc(Seed, s, 0x35);
    s := s + [0x35];
    assert Crc(Seed, s) == 0x340A_C5E3;
    assert s == CheckInput[..5];
  }

  /** The register after "6789", continued from the one left by "12345". */
  lemma CheckSecondHalf()
    ensures Crc(0x340A_C5E3, CheckInput[5..]) == 0x340B_C6D9
  {
    CheckSteps();
    var s: seq<bv8> := [];
    CrcSnoc(0x340A_C5E3, s, 0x36);
    s := s + [0x36];
    assert Crc(0x340A_C5E3, s) == 0xF68D_2C9E;
    CrcSnoc(0x340A_C5E3, s, 0x37);
    s := s + [0x37];
    assert Crc(0x340A_C5E3, s) == 0xAFFC_9660;
    CrcSnoc(0x340A_C5E3, s, 0x38);
    s := s + [0x38];
    assert Crc(0x340A_C5E3, s) == 0x651F_2550;
    CrcSnoc(0x340A_C5E3, s, 0x39);
    s := s + [0x39];
    assert Crc(0x340A_C5E3, s) == 0x340B_C6D9;
    assert s == CheckInput[5..];
  }

  /** The check input "123456789" leaves 0x340BC6D9 in the register: the
      bitwise complement of the published CRC-32 check value 0xCBF43926,
      since the value read is the register before the final complement. */
  lemma CheckValue()
    ensures Checksum(CheckInput) == 0x340B_C6D9
    ensures !Checksum(CheckInput) == 0xCBF4_3926
  {
    CheckFirstHalf();
    CheckSecondHalf();
    CrcConcat(Seed, CheckInput[..5], CheckInput[5..]);
    assert CheckInput[..5] + CheckInput[5..] == CheckInput;
  }

  /** The CRC-32 accumulator. `history` is the byte stream fed so far; the
      register always holds its checksum. */
  class CRC32 {
    var crc: bv32
    ghost var history: seq<bv8>

    ghost predicate Valid()
      reads this
    {
      crc == Checksum(history)
    }

    /** A fresh accumulator holds the seed. */
    constructor ()
      ensures Valid() && history == [] && crc == Seed
    {
      crc := Seed;
      history := [];
    }

    /** `update(c)`: folds one byte into the register. */
    method Update(c: bv8)
      requires Valid()
      modifies this
      ensures Valid()
      ensures history == old(history) + [c]
      ensures crc == Step(old(crc), c)
    {
      crc := Step(crc, c);
      history := history + [c];
      assert history[..|history| - 1] == old(history);
    }

    /** `update(c, n)`: folds the first `n` bytes of `c`, one `update` per
        byte, in order. */
    method UpdateBuffer(c: array<bv8>, n: nat)
      requires Valid()
      requires n <= c.Length
      modifies this
      ensures Valid()
      ensures history == old(history) + c[..n]
      ensures crc == Crc(old(crc), c[..n])
    {
      var k := 0;
      while k < n
        invariant 0 <= k <= n
        invariant Valid()
        invariant history == old(history) + c[..k]
        invariant crc == Crc(old(crc), c[..k])
      {
        Update(c[k]);
        assert c[..k + 1][..k] == c[..k];
        k := k + 1;
      }
    }

    /** `update(data)` for a byte array value: the same as `update(c, n)`
        over its bytes. */
    method UpdateData(data: seq<bv8>)
      requires Valid()
      modifies this
      ensures Valid()
      ensures history == old(history) + data
      ensures crc == Crc(old(crc), data)
    {
      var buffer := new bv8[|data|](i requires 0 <= i < |data| => data[i]);
      assert buffer[..buffer.Length] == data;
      UpdateBuffer(buffer, buffer.Length);
    }

    /** `get()`: the current register, the checksum of every byte fed so
        far; reading it changes nothing. */
    function Get(): (r: bv32)
      reads this
      requires Valid()
      ensures r == Checksum(history)
    {
      crc
    }
  }

  /** Two fresh accumulators fed the same bytes, one through `update(data)`
      and one byte by byte through `update(c)`, read the same value: the
      checksum of the bytes. */
  method FeedTwoWays(data: seq<bv8>) returns (whole: bv32, byByte: bv32)
    ensures whole == byByte == Checksum(data)
  {
    var a := new CRC32();
    a.UpdateData(data);
    whole := a.Get();
    var b := new CRC32();
    var k := 0;
    while k < |data|
      invariant 0 <= k <= |data|
      invariant b.Valid() && b.history == data[..k]
    {
      b.Update(data[k]);
      assert data[..k + 1] == data[..k] + [data[k]];
      k := k + 1;
    }
    assert data[..k] == data;
    byByte := b.Get();
  }

  /** `get()` may be called mid-stream: reading after `a` and again after
      `b` gives the checksum of `a`, then the checksum of `a + b`, which is
      the second part continued from the first reading. */
  method MidStreamRead(a: seq<bv8>, b: seq<bv8>) returns (mid: bv32, end: bv32)
    ensures mid == Checksum(a)
    ensures end == Checksum(a + b)
    ensures end == Crc(mid, b)
  {
    var acc := new CRC32();
    acc.UpdateData(a);
    mid := acc.Get();
    acc.UpdateData(b);
    end := acc.Get();
    ChecksumConcat(a, b);
  }
}
