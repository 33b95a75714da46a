/**
 * The two CRC routines of the SD driver (bootrom/sdboot/sd.c:165-181):
 * `crc7`, used for command frames, and `crc16`, the CRC-CCITT byte update
 * used to check each 512-byte data block.
 */
module Crc {

  // ---------------------------------------------------------------- CRC7

  /**
   * `crc7` exactly as coded. Its comment names polynomial 0x89, but the
   * code starts from `prev & in`, so it is not that CRC (see `Crc7Bits`).
   */
  function Crc7(prev: bv8, inp: bv8): (r: bv8)
    ensures r < 0x80
  {
    var rem := prev & inp;
    var rem1 := rem ^ ((rem >> 4) ^ (rem >> 7));
    var rem2 := rem1 ^ (rem1 << 4);
    rem2 & 0x7F
  }

  /** From a zero remainder the coded `crc7` stays at zero, whatever the byte. */
  lemma Crc7FromZero(x: bv8)
    ensures Crc7(0, x) == 0
  {
  }

  /** The least significant byte of a 32-bit value, as a `uint8_t` cast keeps it. */
  function Lo8(x: bv32): (r: bv8)
    ensures r as bv32 == x & 0xFF
  {
    (x & 0xFF) as bv8
  }

  /**
   * The CRC byte `sd_copy` and `sd_copy_partition` compute for their CMD18
   * frame (sd.c:188-194): five `crc7` folds from 0, shifted left with the end
   * bit set. Because the coded `crc7` is degenerate the byte is 0x01 for
   * every block address.
   */
  function Cmd18Crc(srcLba: bv32): (c: bv8)
    ensures c == 0x01
  {
    var c0 := Crc7(0, 0x52);
    var c1 := Crc7(c0, Lo8(srcLba >> 24));
    var c2 := Crc7(c1, Lo8(srcLba >> 16));
    var c3 := Crc7(c2, Lo8(srcLba >> 8));
    var c4 := Crc7(c3, Lo8(srcLba));
    (c4 << 1) | 1
  }


  /**
   * The CRC7 the comment describes: polynomial x^7 + x^3 + 1 (0x89), the
   * `n` most significant bits of `b` taken first, the remainder held in
   * the low seven bits.
   */
  function Crc7Bits(crc: bv8, b: bv8, n: nat): bv8
    decreases n
  {
    if n == 0 then crc
    else
      var feedback := ((crc >> 6) ^ (b >> 7)) & 1;
      var shifted := (crc << 1) & 0x7F;
      Crc7Bits(if feedback == 1 then shifted ^ 0x09 else shifted, b << 1, n - 1)
  }

  function Crc7PolyFold(crc: bv8, bs: seq<bv8>): bv8
    decreases |bs|
  {
    if bs == [] then crc else Crc7PolyFold(Crc7Bits(crc, bs[0], 8), bs[1..])
  }

  /** The five bytes a command frame's CRC covers: the command byte and the argument, big-endian. */
  function FrameBytes(cmd: bv8, arg: bv32): seq<bv8>
  {
    [cmd, Lo8(arg >> 24), Lo8(arg >> 16), Lo8(arg >> 8), Lo8(arg)]
  }

  /** The CRC byte of a command frame: the 7-bit CRC of its five bytes and an end bit 1. */
  function FrameCrc(cmd: bv8, arg: bv32): bv8
  {
    (Crc7PolyFold(0, FrameBytes(cmd, arg)) << 1) | 1
  }

  // The fixed CRC bytes the bring-up commands send are the true CRC7 bytes
  // of their frames.

  /** CMD0 (sd.c:94) */
  lemma Cmd0CrcIsCrc7()
    ensures FrameCrc(0x40, 0) == 0x95
  {
    assert FrameBytes(0x40, 0) == [0x40, 0x00, 0x00, 0x00, 0x00];
    assert Crc7PolyFold(0x49, [0x00]) == 0x4A;
    assert Crc7PolyFold(0x66, [0x00, 0x00]) == 0x4A;
    assert Crc7PolyFold(0x6D, [0x00, 0x00, 0x00]) == 0x4A;
    assert Crc7PolyFold(0x64, [0x00, 0x00, 0x00, 0x00]) == 0x4A;
    assert Crc7PolyFold(0x00, [0x40, 0x00, 0x00, 0x00, 0x00]) == 0x4A;
  }

  /** CMD8 (sd.c:102) */
  lemma Cmd8CrcIsCrc7()
    ensures FrameCrc(0x48, 0x1AA) == 0x87
  {
    assert FrameBytes(0x48, 0x1AA) == [0x48, 0x00, 0x00, 0x01, 0xAA];
    assert Crc7PolyFold(0x58, [0xAA]) == 0x43;
    assert Crc7PolyFold(0x0C, [0x01, 0xAA]) == 0x43;
    assert Crc7PolyFold(0x35, [0x00, 0x01, 0xAA]) == 0x43;
    assert Crc7PolyFold(0x2C, [0x00, 0x00, 0x01, 0xAA]) == 0x43;
    assert Crc7PolyFold(0x00, [0x48, 0x00, 0x00, 0x01, 0xAA]) == 0x43;
  }

  /** CMD55 (sd.c:112) */
  lemma Cmd55CrcIsCrc7()
    ensures FrameCrc(0x77, 0) == 0x65
  {
    assert FrameBytes(0x77, 0) == [0x77, 0x00, 0x00, 0x00, 0x00];
    assert Crc7PolyFold(0x10, [0x00]) == 0x32;
    assert Crc7PolyFold(0x4C, [0x00, 0x00]) == 0x32;
    assert Crc7PolyFold(0x17, [0x00, 0x00, 0x00]) == 0x32;
    assert Crc7PolyFold(0x70, [0x00, 0x00, 0x00, 0x00]) == 0x32;
    assert Crc7PolyFold(0x00, [0x77, 0x00, 0x00, 0x00, 0x00]) == 0x32;
  }

  /** ACMD41 with HCS set (sd.c:121) */
  lemma Acmd41CrcIsCrc7()
    ensures FrameCrc(0x69, 0x4000_0000) == 0x77
  {
    assert FrameBytes(0x69, 0x4000_0000) == [0x69, 0x40, 0x00, 0x00, 0x00];
    assert Crc7PolyFold(0x54, [0x00]) == 0x3B;
    assert Crc7PolyFold(0x7D, [0x00, 0x00]) == 0x3B;
    assert Crc7PolyFold(0x28, [0x00, 0x00, 0x00]) == 0x3B;
    assert Crc7PolyFold(0x17, [0x40, 0x00, 0x00, 0x00]) == 0x3B;
    assert Crc7PolyFold(0x00, [0x69, 0x40, 0x00, 0x00, 0x00]) == 0x3B;
  }

  /** CMD58 (sd.c:129) */
  lemma Cmd58CrcIsCrc7()
    ensures FrameCrc(0x7A, 0) == 0xFD
  {
    assert FrameBytes(0x7A, 0) == [0x7A, 0x00, 0x00, 0x00, 0x00];
    assert Crc7PolyFold(0x07, [0x00]) == 0x7E;
    assert Crc7PolyFold(0x3C, [0x00, 0x00]) == 0x7E;
    assert Crc7PolyFold(0x68, [0x00, 0x00, 0x00]) == 0x7E;
    assert Crc7PolyFold(0x15, [0x00, 0x00, 0x00, 0x00]) == 0x7E;
    assert Crc7PolyFold(0x00, [0x7A, 0x00, 0x00, 0x00, 0x00]) == 0x7E;
  }

  /** CMD16 with a 512-byte block length (sd.c:141) */
  lemma Cmd16CrcIsCrc7()
    ensures FrameCrc(0x50, 0x200) == 0x15
  {
    assert FrameBytes(0x50, 0x200) == [0x50, 0x00, 0x00, 0x02, 0x00];
    assert Crc7PolyFold(0x6B, [0x00]) == 0x0A;
    assert Crc7PolyFold(0x3B, [0x02, 0x00]) == 0x0A;
    assert Crc7PolyFold(0x54, [0x00, 0x02, 0x00]) == 0x0A;
    assert Crc7PolyFold(0x7D, [0x00, 0x00, 0x02, 0x00]) == 0x0A;
    assert Crc7PolyFold(0x00, [0x50, 0x00, 0x00, 0x02, 0x00]) == 0x0A;
  }

  /**
   * What the coded `crc7` gets wrong: CMD18 for block 0 goes out with CRC
   * byte 0x01 where the CRC7 of its frame gives 0xE1.
   */
  lemma Cmd18CrcDisagrees()
    ensures Cmd18Crc(0) == 0x01 && FrameCrc(0x52, 0) == 0xE1
  {
    assert FrameBytes(0x52, 0) == [0x52, 0x00, 0x00, 0x00, 0x00];
    assert Crc7PolyFold(0x7F, [0x00]) == 0x70;
    assert Crc7PolyFold(0x65, [0x00, 0x00]) == 0x70;
    assert Crc7PolyFold(0x42, [0x00, 0x00, 0x00]) == 0x70;
    assert Crc7PolyFold(0x6F, [0x00, 0x00, 0x00, 0x00]) == 0x70;
    assert Crc7PolyFold(0x00, [0x52, 0x00, 0x00, 0x00, 0x00]) == 0x70;
  }

  /** CMD12 (sd.c:223, 275) goes out with CRC byte 0x01 where the CRC7 of its frame gives 0x61. */
  lemma Cmd12CrcDisagrees()
    ensures FrameCrc(0x4C, 0) == 0x61
  {
    assert FrameBytes(0x4C, 0) == [0x4C, 0x00, 0x00, 0x00, 0x00];
    assert Crc7PolyFold(0x5D, [0x00]) == 0x30;
    assert Crc7PolyFold(0x39, [0x00, 0x00]) == 0x30;
    assert Crc7PolyFold(0x19, [0x00, 0x00, 0x00]) == 0x30;
    assert Crc7PolyFold(0x08, [0x00, 0x00, 0x00, 0x00]) == 0x30;
    assert Crc7PolyFold(0x00, [0x4C, 0x00, 0x00, 0x00, 0x00]) == 0x30;
  }

  // --------------------------------------------------------------- CRC16

  /**
   * `crc16` as coded, the byte swap and the data xor (sd.c:175-176) in
   * one `let`, then one `let` per statement of sd.c:177-179. Its
   * postcondition is the bit-serial CRC-CCITT update the comment names:
   * `crc ^ (data << 8)` shifted left eight times, most significant bit
   * first, with the polynomial 0x1021 xored in whenever the bit shifted out
   * (`s >> 15`) is 1.
   */
  function Crc16(crc: bv16, data: bv8): (r: bv16)
    ensures
      var s0 := crc ^ ((data as bv16) << 8);
      var s1 := (s0 << 1) ^ ((s0 >> 15) * 0x1021);
      var s2 := (s1 << 1) ^ ((s1 >> 15) * 0x1021);
      var s3 := (s2 << 1) ^ ((s2 >> 15) * 0x1021);
      var s4 := (s3 << 1) ^ ((s3 >> 15) * 0x1021);
      var s5 := (s4 << 1) ^ ((s4 >> 15) * 0x1021);
      var s6 := (s5 << 1) ^ ((s5 >> 15) * 0x1021);
      var s7 := (s6 << 1) ^ ((s6 >> 15) * 0x1021);
      r == (s7 << 1) ^ ((s7 >> 15) * 0x1021)
  {
    var c0 := ((crc >> 8) | (crc << 8)) ^ (data as bv16);
    var c1 := c0 ^ ((c0 >> 4) & 0xF);
    var c2 := c1 ^ (c1 << 12);
    c2 ^ ((c2 & 0xFF) << 5)
  }

  /** CRC16 of a byte sequence: `crc16` folded over it from the left. */
  function Crc16Fold(crc: bv16, bs: seq<bv8>): bv16
    decreases |bs|
  {
    if bs == [] then crc else Crc16(Crc16Fold(crc, bs[..|bs| - 1]), bs[|bs| - 1])
  }

  /** Folding over one byte more applies `crc16` once more. */
  lemma Crc16FoldSnoc(crc: bv16, bs: seq<bv8>, b: bv8)
    ensures Crc16Fold(crc, bs + [b]) == Crc16(Crc16Fold(crc, bs), b)
  {
    assert (bs + [b])[..|bs|] == bs;
  }

  /** Folding over a concatenation folds over the second part from the first part's CRC. */
  lemma {:induction false} Crc16FoldAppend(crc: bv16, a: seq<bv8>, b: seq<bv8>)
    ensures Crc16Fold(crc, a + b) == Crc16Fold(Crc16Fold(crc, a), b)
    decreases |b|
  {
    if b == [] {
      assert a + b == a;
    } else {
      var b' := b[..|b| - 1];
      assert (a + b)[..|a + b| - 1] == a + b';
      Crc16FoldAppend(crc, a, b');
    }
  }

  /** A non-zero remainder stays non-zero over a zero data byte. */
  lemma Crc16KeepsError(c: bv16)
    requires c != 0
    ensures Crc16(c, 0) != 0
  {
  }

  /** A non-zero data byte folded into a zero remainder gives a non-zero remainder. */
  lemma Crc16SeesByte(d: bv8)
    requires d != 0
    ensures Crc16(0, d) != 0
  {
  }

  /** `n` zero bytes. */
  function Zeros(n: nat): (z: seq<bv8>)
    ensures |z| == n && forall i :: 0 <= i < n ==> z[i] == 0
  {
    seq(n, _ => 0)
  }

  /** Zero bytes keep a zero remainder zero and a non-zero remainder non-zero. */
  lemma {:induction false} Crc16FoldZeros(c: bv16, n: nat)
    ensures c == 0 ==> Crc16Fold(c, Zeros(n)) == 0
    ensures c != 0 ==> Crc16Fold(c, Zeros(n)) != 0
  {
    if n > 0 {
      assert Zeros(n)[..n - 1] == Zeros(n - 1);
      Crc16FoldZeros(c, n - 1);
      if c != 0 {
        Crc16KeepsError(Crc16Fold(c, Zeros(n - 1)));
      }
    }
  }

  /**
   * The error pattern of a block corrupted in one byte: zero everywhere
   * but at one position, where it is `d`. Its CRC16 from 0 is not 0, which
   * is the single-byte, and so the single-bit, error detection of CRC-CCITT
   * stated on the error pattern.
   */
  lemma Crc16SeesOneByteError(k: nat, d: bv8, m: nat)
    requires d != 0
    ensures Crc16Fold(0, Zeros(k) + [d] + Zeros(m)) != 0
  {
    Crc16FoldZeros(0, k);
    Crc16FoldSnoc(0, Zeros(k), d);
    Crc16SeesByte(d);
    Crc16FoldAppend(0, Zeros(k) + [d], Zeros(m));
    Crc16FoldZeros(Crc16(0, d), m);
  }
}
