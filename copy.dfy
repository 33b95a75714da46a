/**
 * The block copy engine: `sd_copy` and `sd_copy_partition`
 * (bootrom/sdboot/sd.c:183-279). Both send CMD18 (READ_MULTIPLE_BLOCK),
 * then read 512-byte blocks, each after its 0xFE start token and followed
 * by a big-endian CRC16, until the requested count is reached or a CRC
 * does not match, and finish with CMD12 (STOP_TRANSMISSION).
 *
 * Between CMD18 and CMD12 the driver only exchanges idle bytes, so the
 * reading of blocks is specified on positions of the card's stream
 * (`Blocks`), and the link afterwards is the link before with that many
 * idle bytes more.
 */
module Copy {
  import opened Spi
  import SdCmd
  import Crc

  datatype Option<T> = None | Some(value: T)

  /**
   * The result of a wait that may never end: the token wait of sd.c:204
   * spins forever on a card that never sends 0xFE.
   */
  datatype Wait<T> = Forever | Done(value: T)

  const BlockSize: nat := 512

  /** SD_DATA_TOKEN: the start token of a data block (sd.c:161). */
  const DataToken: bv8 := 0xFE

  /** SD_COPY_ERROR_CMD18 and SD_COPY_ERROR_CMD18_CRC (sd.c:154-155). */
  const ErrCmd18: int := 1
  const ErrCmd18Crc: int := 2

  /** CMD18 and CMD12 command bytes, `SD_CMD(18)` and `SD_CMD(12)` (sd.c:157-163). */
  const Cmd18: bv8 := 0x52
  const Cmd12: bv8 := 0x4C

  /**
   * The CRC byte of every CMD18 frame: what `crc7` folds to for any block
   * address (`Crc.Cmd18Crc`), and also the byte CMD12 is sent with.
   */
  const Cmd18CrcByte: bv8 := 0x01

  // ------------------------------------------------------ the byte stream

  /** The `n` bytes of stream `s` from position `p` on. */
  function Bytes(s: seq<bv8>, p: nat, n: nat): seq<bv8>
  {
    seq(n, i requires 0 <= i => At(s, p + i))
  }

  /**
   * `while (sd_dummy() != SD_DATA_TOKEN);` from position `p`: the position
   * just after the first 0xFE, or `None` when the rest of the stream has
   * none, in which case the wait never ends (the idle line reads 0xFF).
   */
  function TokenEnd(s: seq<bv8>, p: nat): (r: Option<nat>)
    ensures r.Some? ==> p < r.value <= |s|
    decreases |s| - p
  {
    if p >= |s| then None
    else if s[p] == DataToken then Some(p + 1)
    else TokenEnd(s, p + 1)
  }

  /** `TokenEnd` finds the first token from `p` on, and finds none only when there is none. */
  lemma {:induction false} TokenEndFirst(s: seq<bv8>, p: nat)
    ensures TokenEnd(s, p).Some? ==>
      var t := TokenEnd(s, p).value - 1;
      s[t] == DataToken && forall j :: p <= j < t ==> s[j] != DataToken
    ensures TokenEnd(s, p).None? ==> forall j :: p <= j < |s| ==> s[j] != DataToken
    decreases |s| - p
  {
    if p < |s| && s[p] != DataToken {
      TokenEndFirst(s, p + 1);
    }
  }

  /** The CRC16 the card sends after a block whose first data byte is at `d`: big-endian (sd.c:211-212). */
  function ExpectedCrc(s: seq<bv8>, d: nat): bv16
  {
    Word(At(s, d + 512), At(s, d + 513))
  }

  /** `((uint16_t)hi << 8) | lo` */
  function Word(hi: bv8, lo: bv8): bv16
  {
    ((hi as bv16) << 8) | (lo as bv16)
  }

  /** Reading one byte more extends the bytes read by the byte at the next position. */
  lemma BytesSnoc(s: seq<bv8>, p: nat, n: nat)
    ensures Bytes(s, p, n + 1) == Bytes(s, p, n) + [At(s, p + n)]
  {
  }

  /**
   * The block whose data starts at `d` arrived intact: the CRC16 of its
   * 512 data bytes equals the two bytes after them, high byte first.
   */
  predicate Good(s: seq<bv8>, d: nat)
  {
    Crc.Crc16Fold(0, Bytes(s, d, BlockSize)) == ExpectedCrc(s, d)
  }

  /** The two CRC bytes are read back from the word they form. */
  lemma WordBytes(hi: bv8, lo: bv8)
    ensures (Word(hi, lo) >> 8) as bv8 == hi && (Word(hi, lo) & 0xFF) as bv8 == lo
  {
  }

  /**
   * A good block stops being good when one of its two trailing CRC bytes
   * is changed (in particular when one of its bits flips): the data and so
   * their CRC16 stay the same, the expected CRC does not.
   */
  lemma GoodSeesCrcByteError(s: seq<bv8>, d: nat, q: nat, v: bv8)
    requires q == d + 512 || q == d + 513
    requires q < |s| && v != s[q]
    ensures Good(s, d) ==> !Good(s[q := v], d)
  {
    var s' := s[q := v];
    forall i | 0 <= i < BlockSize
      ensures Bytes(s', d, BlockSize)[i] == Bytes(s, d, BlockSize)[i]
    {
      assert d + i != q;
      assert At(s', d + i) == At(s, d + i);
    }
    assert Bytes(s', d, BlockSize) == Bytes(s, d, BlockSize);
    WordBytes(At(s, d + 512), At(s, d + 513));
    WordBytes(At(s', d + 512), At(s', d + 513));
  }

  /** `Good` for the stream `s`, as the block loop below is stated for any check of a block. */
  function GoodAt(s: seq<bv8>): nat -> bool
  {
    (d: nat) => Good(s, d)
  }

  // ------------------------------------------------------------ the blocks

  /**
   * What the block loop did: its return code, the position of the first
   * data byte of every block read, in order, and the position after the
   * last CRC byte read.
   */
  datatype Outcome = Outcome(rc: int, starts: seq<nat>, end: nat)

  /** `w` with `ks` in front of its block list. */
  function Prefixed(ks: seq<nat>, w: Wait<Outcome>): Wait<Outcome>
  {
    match w
    case Forever => Forever
    case Done(o) => Done(o.(starts := ks + o.starts))
  }

  /**
   * The `do { ... } while (--i > 0)` block loop of sd.c:198-221 from
   * position `p` with counter `i`: wait for the token, read 512 bytes and
   * the CRC, stop with 2 when `good` rejects the block (`GoodAt(s)` is the
   * CRC16 comparison), otherwise go on while `--i > 0`.
   */
  function Blocks(s: seq<bv8>, p: nat, i: int, good: nat -> bool): (r: Wait<Outcome>)
    ensures r.Done? ==> p < r.value.end && 1 <= |r.value.starts| <= Count(i)
    decreases if i > 0 then i else 0
  {
    match TokenEnd(s, p)
    case None => Forever
    case Some(d) =>
      if !good(d) then Done(Outcome(ErrCmd18Crc, [d], d + 514))
      else if i - 1 > 0 then Prefixed([d], Blocks(s, d + 514, i - 1, good))
      else Done(Outcome(0, [d], d + 514))
  }

  /** How many blocks the loop reads when every CRC matches: the do-while reads one even for `i <= 0`. */
  function Count(i: int): nat
  {
    if i > 1 then i else 1
  }

  /**
   * The loop reads at least one block and at most `Count(i)`; it returns 0
   * exactly when the last block read is good, and then it has read exactly
   * `Count(i)` blocks; otherwise it returns 2. It ends after the last
   * block's two CRC bytes.
   */
  lemma {:induction false} BlocksCount(s: seq<bv8>, p: nat, i: int, good: nat -> bool)
    requires Blocks(s, p, i, good).Done?
    ensures var o := Blocks(s, p, i, good).value;
      && 1 <= |o.starts| <= Count(i)
      && TokenEnd(s, p) == Some(o.starts[0])
      && o.end == o.starts[|o.starts| - 1] + 514
      && (o.rc == 0 || o.rc == ErrCmd18Crc)
      && (o.rc == 0 <==> good(o.starts[|o.starts| - 1]))
      && (o.rc == 0 ==> |o.starts| == Count(i))
    decreases if i > 0 then i else 0
  {
    var d := TokenEnd(s, p).value;
    if good(d) && i - 1 > 0 {
      BlocksCount(s, d + 514, i - 1, good);
      var o' := Blocks(s, d + 514, i - 1, good).value;
      var o := Blocks(s, p, i, good).value;
      assert o.starts == [d] + o'.starts;
      assert o.starts[|o.starts| - 1] == o'.starts[|o'.starts| - 1];
    }
  }

  /**
   * Block `k + 1` is the first token after block `k`'s CRC, and block `k`
   * was good: the loop stops at the first block whose CRC does not match.
   */
  lemma {:induction false} BlocksChain(s: seq<bv8>, p: nat, i: int, good: nat -> bool, k: nat)
    requires Blocks(s, p, i, good).Done?
    requires k + 1 < |Blocks(s, p, i, good).value.starts|
    ensures var ks := Blocks(s, p, i, good).value.starts;
      TokenEnd(s, ks[k] + 514) == Some(ks[k + 1]) && good(ks[k])
    decreases if i > 0 then i else 0
  {
    var d := TokenEnd(s, p).value;
    var w := Blocks(s, d + 514, i - 1, good);
    assert Blocks(s, p, i, good) == Prefixed([d], w);
    var ks := [d] + w.value.starts;
    assert Blocks(s, p, i, good).value.starts == ks;
    if k == 0 {
      BlocksCount(s, d + 514, i - 1, good);
    } else {
      BlocksChain(s, d + 514, i - 1, good, k - 1);
      assert ks[k] == w.value.starts[k - 1];
    }
  }

  lemma PrefixedPrefixed(a: seq<nat>, b: seq<nat>, w: Wait<Outcome>)
    ensures Prefixed(a, Prefixed(b, w)) == Prefixed(a + b, w)
  {
    if w.Done? {
      assert a + (b + w.value.starts) == (a + b) + w.value.starts;
    }
  }

  /** What lands in the destination: the 512 data bytes of each block read, one block after another. */
  function Image(s: seq<bv8>, starts: seq<nat>): (r: seq<bv8>)
    ensures |r| == 512 * |starts|
    decreases |starts|
  {
    if starts == [] then [] else Image(s, starts[..|starts| - 1]) + Bytes(s, starts[|starts| - 1], 512)
  }

  /**
   * Block `k` lands at `dst[512*k .. 512*k + 512)`: byte `j` there is the
   * `j`-th byte after that block's token.
   */
  lemma {:induction false} ImageAt(s: seq<bv8>, starts: seq<nat>, k: nat, j: nat)
    requires k < |starts| && j < 512
    ensures Image(s, starts)[512 * k + j] == At(s, starts[k] + j)
    decreases |starts|
  {
    var n := |starts| - 1;
    var front := Image(s, starts[..n]);
    var last := Bytes(s, starts[n], 512);
    var x := 512 * k + j;
    assert Image(s, starts) == front + last;
    if k < n {
      assert x < |front|;
      ImageAt(s, starts[..n], k, j);
      assert starts[..n][k] == starts[k];
      assert (front + last)[x] == front[x];
    } else {
      assert x == |front| + j;
      assert (front + last)[x] == last[j];
    }
  }

  // ------------------------------------------------- the whole operation

  /** `long i = size` on a 64-bit target: a size of 2^63 or more becomes negative. */
  function SignedLong(size: nat): int
    requires size < 0x1_0000_0000_0000_0000
  {
    if size < 0x8000_0000_0000_0000 then size else size - 0x1_0000_0000_0000_0000
  }

  /** What `sd_copy` / `sd_copy_partition` did: return code, blocks read, final link. */
  datatype Copied = Copied(rc: int, starts: seq<nat>, link: Link)

  /**
   * `sd_copy(dst, src_lba, size)` (sd.c:183-226) and, with `partition`,
   * `sd_copy_partition(src_lba, size)` (sd.c:228-279), which differs only
   * in the extra `sd_cmd_end` before CMD12 (sd.c:273).
   */
  function CopyRun(l: Link, lba: bv32, size: nat, partition: bool): Wait<Copied>
    requires size < 0x1_0000_0000_0000_0000
  {
    CopyFrom(l, lba, SignedLong(size), partition)
  }

  /** The copy with the block counter `i` already converted to `long`. */
  function CopyFrom(l: Link, lba: bv32, i: int, partition: bool): Wait<Copied>
  {
    var l1 := SdCmd.CmdLink(l, Cmd18, lba, Cmd18CrcByte);
    if At(l.card, SdCmd.ReplyAt(l)) != 0 then Done(Copied(ErrCmd18, [], SdCmd.CmdEndRun(l1)))
    else AcceptedRun(l1, i, partition)
  }

  /**
   * The copy once CMD18 was accepted, from the link `l1` it left: the
   * block loop and, whatever it returned, the stop.
   */
  function AcceptedRun(l1: Link, i: int, partition: bool): Wait<Copied>
  {
    match Blocks(l1.card, |l1.sent|, i, GoodAt(l1.card))
    case Forever => Forever
    case Done(o) => Done(Copied(o.rc, o.starts, StopRun(SendRun(l1, Idle(o.end - |l1.sent|)), partition)))
  }

  /**
   * After the block loop (sd.c:223-224, 273-276): `sd_copy_partition`'s
   * extra `sd_cmd_end`, then CMD12 with argument 0 and CRC byte 0x01, its
   * response ignored, and `sd_cmd_end`.
   */
  function StopRun(l: Link, partition: bool): Link
  {
    var ended := if partition then SdCmd.CmdEndRun(l) else l;
    SdCmd.CmdEndRun(SdCmd.CmdLink(ended, Cmd12, 0, 0x01))
  }

  /** `a` starts with `img`. */
  predicate Stored(a: array<bv8>, img: seq<bv8>)
    reads a
  {
    |img| <= a.Length && forall q :: 0 <= q < |img| ==> a[q] == img[q]
  }

  /** `a` still holds `orig` from index `from` on. */
  predicate Kept(a: array<bv8>, from: nat, orig: seq<bv8>)
    reads a
  {
    |orig| == a.Length && forall q :: from <= q < a.Length ==> a[q] == orig[q]
  }

  /** An array that starts with `img` and keeps `orig` after it holds `img` over `orig`. */
  lemma StoredOver(a: array<bv8>, img: seq<bv8>, orig: seq<bv8>)
    requires Stored(a, img) && Kept(a, |img|, orig)
    ensures a[..] == img + orig[|img|..]
  {
    assert forall q :: 0 <= q < a.Length ==> a[..][q] == (img + orig[|img|..])[q];
  }

  /** The image grows by one block's bytes per block read. */
  lemma ImageSnoc(s: seq<bv8>, ks: seq<nat>, d: nat)
    ensures Image(s, ks + [d]) == Image(s, ks) + Bytes(s, d, 512)
  {
    assert (ks + [d])[..|ks|] == ks;
  }

  // ------------------------------------------------------------ the methods

  /** `while (sd_dummy() != SD_DATA_TOKEN);` (sd.c:204, 253), for a stream that does send the token. */
  method SkipToToken(bus: Bus)
    requires TokenEnd(bus.card, |bus.sent|).Some?
    modifies bus
    ensures |bus.sent| == TokenEnd(bus.card, |old(bus.sent)|).value
    ensures bus.State() == SendRun(old(bus.State()), Idle(|bus.sent| - |old(bus.sent)|))
  {
    ghost var l := bus.State();
    ghost var t := TokenEnd(bus.card, Pos(l)).value;
    SendNothing(l);
    DummyAfterIdle(l, 0);
    var b := bus.Dummy();
    while b != DataToken
      invariant Pos(l) < |bus.sent| <= t
      invariant bus.State() == SendRun(l, Idle(|bus.sent| - Pos(l)))
      invariant b == DataToken ==> |bus.sent| == t
      invariant b != DataToken ==> TokenEnd(bus.card, |bus.sent|) == Some(t)
      decreases t - |bus.sent|
    {
      DummyAfterIdle(l, |bus.sent| - Pos(l));
      b := bus.Dummy();
    }
  }

  /**
   * The inner `do { ... } while (--n > 0)` of sd.c:205-209 with `n = 512`:
   * 512 bytes read, stored from `dst[off]` on, and folded into the CRC16.
   */
  method ReceiveBlock(bus: Bus, dst: array<bv8>, off: nat) returns (crc: bv16)
    requires off + 512 <= dst.Length
    modifies bus, dst
    ensures |bus.sent| == |old(bus.sent)| + 512
    ensures bus.State() == SendRun(old(bus.State()), Idle(512))
    ensures crc == Crc.Crc16Fold(0, Bytes(bus.card, |old(bus.sent)|, BlockSize))
    ensures forall q :: off <= q < off + 512 ==> dst[q] == At(bus.card, |old(bus.sent)| + (q - off))
    ensures forall q :: 0 <= q < dst.Length && !(off <= q < off + 512) ==> dst[q] == old(dst[q])
  {
    ghost var l := bus.State();
    SendNothing(l);
    crc := 0;
    var j := 0;
    while j < 512
      invariant 0 <= j <= 512
      invariant bus.State() == SendRun(l, Idle(j))
      invariant crc == Crc.Crc16Fold(0, Bytes(bus.card, Pos(l), j))
      invariant forall q :: off <= q < off + j ==> dst[q] == At(bus.card, Pos(l) + (q - off))
      invariant forall q :: 0 <= q < dst.Length && !(off <= q < off + j) ==> dst[q] == old(dst[q])
    {
      crc := ReceiveByte(bus, dst, off, j, crc, l);
      j := j + 1;
    }
  }

  /** One turn of the inner loop of sd.c:205-209: byte `j` of the block read, stored and folded into the CRC16. */
  method ReceiveByte(bus: Bus, dst: array<bv8>, off: nat, j: nat, crc: bv16, ghost l: Link) returns (crc': bv16)
    requires off + j < dst.Length
    requires bus.State() == SendRun(l, Idle(j))
    requires crc == Crc.Crc16Fold(0, Bytes(bus.card, Pos(l), j))
    modifies bus, dst
    ensures bus.State() == SendRun(l, Idle(j + 1))
    ensures crc' == Crc.Crc16Fold(0, Bytes(bus.card, Pos(l), j + 1))
    ensures dst[off + j] == At(bus.card, Pos(l) + j)
    ensures forall q :: 0 <= q < dst.Length && q != off + j ==> dst[q] == old(dst[q])
  {
    DummyAfterIdle(l, j);
    var x := bus.Dummy();
    dst[off + j] := x;
    BytesSnoc(bus.card, Pos(l), j);
    Crc.Crc16FoldSnoc(0, Bytes(bus.card, Pos(l), j), x);
    crc' := Crc.Crc16(crc, x);
  }


  /** sd.c:211-212: the two CRC bytes after a block whose data started at `d`, high byte first. */
  method ReadCrc(bus: Bus, ghost d: nat) returns (e: bv16)
    requires |bus.sent| == d + 512
    modifies bus
    ensures |bus.sent| == d + 514
    ensures bus.State() == SendRun(old(bus.State()), Idle(2))
    ensures e == ExpectedCrc(bus.card, d)
  {
    ghost var l := bus.State();
    SendNothing(l);
    DummyAfterIdle(l, 0);
    var hi := bus.Dummy();
    DummyAfterIdle(l, 1);
    var lo := bus.Dummy();
    e := Word(hi, lo);
  }

  /**
   * One pass of the block loop's body (sd.c:201-216): the token wait, the
   * 512 data bytes stored from `dst[off]` on, the two CRC bytes, and the
   * comparison. `d` is where the block's data started.
   */
  method ReadBlock(bus: Bus, dst: array<bv8>, off: nat) returns (ok: bool, ghost d: nat)
    requires TokenEnd(bus.card, |bus.sent|).Some?
    requires off + 512 <= dst.Length
    modifies bus, dst
    ensures d == TokenEnd(bus.card, |old(bus.sent)|).value && |bus.sent| == d + 514
    ensures bus.State() == SendRun(old(bus.State()), Idle(d + 514 - |old(bus.sent)|))
    ensures ok == Good(bus.card, d)
    ensures forall q :: off <= q < off + 512 ==> dst[q] == At(bus.card, d + (q - off))
    ensures forall q :: 0 <= q < dst.Length && !(off <= q < off + 512) ==> dst[q] == old(dst[q])
  {
    ghost var l := bus.State();
    ghost var p := |bus.sent|;
    SkipToToken(bus);
    d := |bus.sent|;
    ghost var l1 := bus.State();
    assert l1 == SendRun(l, Idle(d - p));
    var crc := ReceiveBlock(bus, dst, off);
    assert forall q :: off <= q < off + 512 ==> dst[q] == At(bus.card, d + (q - off));
    ghost var l2 := bus.State();
    assert l2 == SendRun(l1, Idle(512));
    MoreIdle(l, d - p, 512, d - p + 512);
    var e := ReadCrc(bus, d);
    ok := crc == e;
    assert bus.State() == SendRun(l2, Idle(2));
    MoreIdle(l, d - p + 512, 2, |bus.sent| - p);
  }

  /**
   * One pass of the block loop as the loop sees it: `w` is the whole
   * outcome, `ks` the blocks read so far and `Blocks(s, p, i, good)` the
   * rest. After reading the block at the next token, either the loop stops
   * with 2 (a bad block), stops with 0 (the count is exhausted), or goes on
   * from the position after that block's CRC with `i - 1`.
   */
  lemma BlocksStep(w: Wait<Outcome>, ks: seq<nat>, s: seq<bv8>, p: nat, i: int, good: nat -> bool, d: nat)
    requires Blocks(s, p, i, good).Done? && w == Prefixed(ks, Blocks(s, p, i, good))
    requires TokenEnd(s, p) == Some(d)
    ensures !good(d) ==> w == Done(Outcome(ErrCmd18Crc, ks + [d], d + 514))
    ensures good(d) && i - 1 <= 0 ==> w == Done(Outcome(0, ks + [d], d + 514))
    ensures good(d) && i - 1 > 0 ==>
      Blocks(s, d + 514, i - 1, good).Done? && w == Prefixed(ks + [d], Blocks(s, d + 514, i - 1, good))
  {
    if good(d) && i - 1 > 0 {
      PrefixedPrefixed(ks, [d], Blocks(s, d + 514, i - 1, good));
    }
  }

  lemma GoodAtIs(s: seq<bv8>, d: nat)
    ensures GoodAt(s)(d) == Good(s, d)
  {
  }

  lemma PrefixedNothing(w: Wait<Outcome>)
    ensures Prefixed([], w) == w
  {
    if w.Done? {
      assert [] + w.value.starts == w.value.starts;
    }
  }

  /**
   * One pass of the block loop (sd.c:201-220) stated against the loop's
   * bookkeeping: `w` is the whole outcome, `ks` the blocks read so far,
   * `n` the idle bytes exchanged so far and `orig` the destination before
   * the loop. After it one more block is read and stored, and the loop
   * either stops (a bad block, or the count used up) or goes on with `i - 1`.
   */
  method NextBlock(bus: Bus, dst: array<bv8>, off: nat, i: int, ghost l: Link, ghost n: nat,
                   ghost ks: seq<nat>, ghost orig: seq<bv8>, ghost w: Wait<Outcome>, ghost img: seq<bv8>)
      returns (ok: bool, ghost d: nat, ghost n': nat)
    requires w.Done? && 512 * |w.value.starts| <= dst.Length && |orig| == dst.Length
    requires off == 512 * |ks|
    requires |bus.sent| == Pos(l) + n && bus.State() == SendRun(l, Idle(n))
    requires Blocks(bus.card, |bus.sent|, i, GoodAt(bus.card)).Done?
    requires w == Prefixed(ks, Blocks(bus.card, |bus.sent|, i, GoodAt(bus.card)))
    requires |img| == off && (forall q :: 0 <= q < off ==> dst[q] == img[q])
    requires forall q :: off <= q < dst.Length ==> dst[q] == orig[q]
    modifies bus, dst
    ensures |ks| + 1 <= |w.value.starts|
    ensures |bus.sent| == Pos(l) + n' && bus.State() == SendRun(l, Idle(n'))
    ensures !ok ==> w == Done(Outcome(ErrCmd18Crc, ks + [d], |bus.sent|))
    ensures ok && i - 1 <= 0 ==> w == Done(Outcome(0, ks + [d], |bus.sent|))
    ensures ok && i - 1 > 0 ==>
      Blocks(bus.card, |bus.sent|, i - 1, GoodAt(bus.card)).Done? &&
      w == Prefixed(ks + [d], Blocks(bus.card, |bus.sent|, i - 1, GoodAt(bus.card)))
    ensures forall q :: 0 <= q < off + 512 ==> dst[q] == (img + Bytes(bus.card, d, 512))[q]
    ensures forall q :: off + 512 <= q < dst.Length ==> dst[q] == orig[q]
  {
    ghost var s := bus.card;
    ghost var p := |bus.sent|;
    ghost var rest := Blocks(s, p, i, GoodAt(s));
    assert |w.value.starts| == |ks| + |rest.value.starts|;
    ok, d := ReadBlock(bus, dst, off);
    MoreIdle(l, n, d + 514 - p, n + (d + 514 - p));
    n' := n + (d + 514 - p);
    GoodAtIs(s, d);
    BlocksStep(w, ks, s, p, i, GoodAt(s), d);
  }

  /**
   * The outer `do { ... } while (--i > 0)` of sd.c:198-221 from counter
   * `i0`: it does what `Blocks` says, leaves the bytes of every block read
   * one after another at the start of `dst`, and touches nothing after them.
   */
  method ReadBlocks(bus: Bus, dst: array<bv8>, i0: int) returns (rc: int)
    requires Blocks(bus.card, |bus.sent|, i0, GoodAt(bus.card)).Done?
    requires 512 * Count(i0) <= dst.Length
    modifies bus, dst
    ensures var o := Blocks(bus.card, |old(bus.sent)|, i0, GoodAt(bus.card)).value;
      && rc == o.rc
      && |bus.sent| == o.end
      && bus.State() == SendRun(old(bus.State()), Idle(o.end - |old(bus.sent)|))
      && (forall q :: 0 <= q < 512 * |o.starts| ==> dst[q] == Image(bus.card, o.starts)[q])
      && (forall q :: 512 * |o.starts| <= q < dst.Length ==> dst[q] == old(dst[q]))
  {
    ghost var l := bus.State();
    ghost var s := bus.card;
    ghost var w := Blocks(s, Pos(l), i0, GoodAt(s));
    ghost var orig := dst[..];
    var i := i0;
    var off := 0;
    ghost var ks: seq<nat> := [];
    ghost var n: nat := 0;
    ghost var img: seq<bv8> := [];
    SendNothing(l);
    PrefixedNothing(w);
    var more := true;
    rc := 0;
    while more
      invariant w.Done? && 512 * |w.value.starts| <= dst.Length
      invariant off == 512 * |ks|
      invariant |bus.sent| == Pos(l) + n
      invariant bus.State() == SendRun(l, Idle(n))
      invariant more ==> rc == 0 && Blocks(s, |bus.sent|, i, GoodAt(s)).Done?
      invariant more ==> w == Prefixed(ks, Blocks(s, |bus.sent|, i, GoodAt(s)))
      invariant !more ==> w == Done(Outcome(rc, ks, |bus.sent|))
      invariant img == Image(s, ks) && forall q :: 0 <= q < off ==> dst[q] == img[q]
      invariant forall q :: off <= q < dst.Length ==> dst[q] == orig[q]
      decreases more, if i > 0 then i else 0
    {
      var ok: bool;
      ghost var d: nat;
      ok, d, n := NextBlock(bus, dst, off, i, l, n, ks, orig, w, img);
      ImageSnoc(s, ks, d);
      img := img + Bytes(s, d, 512);
      if !ok {
        rc := ErrCmd18Crc;
        more := false;
      } else {
        i := i - 1;
        more := i > 0;
      }
      ks := ks + [d];
      off := off + 512;
    }
  }

  /**
   * `sd_copy` (sd.c:183-226) and, with `partition`, `sd_copy_partition`
   * (sd.c:228-279): CMD18 with the CRC byte `crc7` yields, the block loop
   * when the card accepts, then CMD12 with CRC byte 0x01 whatever the loop
   * returned. The destination needs room only for the blocks actually read.
   */
  method ReadMultiple(bus: Bus, dst: array<bv8>, lba: bv32, size: nat, partition: bool) returns (rc: int)
    requires size < 0x1_0000_0000_0000_0000
    requires CopyRun(bus.State(), lba, size, partition).Done?
    requires 512 * Count(SignedLong(size)) <= dst.Length
    modifies bus, dst
    ensures var c := CopyRun(old(bus.State()), lba, size, partition).value;
      && rc == c.rc
      && bus.State() == c.link
      && Stored(dst, Image(bus.card, c.starts))
      && Kept(dst, 512 * |c.starts|, old(dst[..]))
  {
    rc := ReadMultipleSteps(bus, dst, lba, SignedLong(size), partition);
  }

  /**
   * `ReadMultiple` once the block count is a `long`: on a non-zero CMD18
   * reply only `sd_cmd_end` follows and `dst` is untouched; otherwise the
   * block loop and the stop, from the link CMD18 leaves.
   */
  method ReadMultipleSteps(bus: Bus, dst: array<bv8>, lba: bv32, i: int, partition: bool) returns (rc: int)
    requires CopyFrom(bus.State(), lba, i, partition).Done?
    requires 512 * Count(i) <= dst.Length
    modifies bus, dst
    ensures var c := CopyFrom(old(bus.State()), lba, i, partition).value;
      && rc == c.rc
      && bus.State() == c.link
      && Stored(dst, Image(bus.card, c.starts))
      && Kept(dst, 512 * |c.starts|, old(dst[..]))
  {
    ghost var l := bus.State();
    var r := StartRead(bus, lba);
    if r != 0 {
      rc := Rejected(bus, l, lba, i, partition);
      assert Image(bus.card, []) == [];
    } else {
      rc := Accepted(bus, dst, l, lba, i, partition);
    }
  }

  /** CMD18 was refused (sd.c:195-197): `sd_cmd_end` and error 1. */
  method Rejected(bus: Bus, ghost l: Link, lba: bv32, i: int, partition: bool) returns (rc: int)
    requires bus.State() == SdCmd.CmdLink(l, Cmd18, lba, Cmd18CrcByte)
    requires At(l.card, SdCmd.ReplyAt(l)) != 0
    modifies bus
    ensures var c := CopyFrom(l, lba, i, partition).value;
      rc == c.rc && bus.State() == c.link && c.starts == []
  {
    assert CopyFrom(l, lba, i, partition) == Done(Copied(ErrCmd18, [], SdCmd.CmdEndRun(bus.State())));
    SdCmd.CmdEnd(bus);
    rc := ErrCmd18;
  }

  /** CMD18 was accepted: the block loop and the stop. */
  method Accepted(bus: Bus, dst: array<bv8>, ghost l: Link, lba: bv32, i: int, partition: bool) returns (rc: int)
    requires bus.State() == SdCmd.CmdLink(l, Cmd18, lba, Cmd18CrcByte)
    requires At(l.card, SdCmd.ReplyAt(l)) == 0 && CopyFrom(l, lba, i, partition).Done?
    requires 512 * Count(i) <= dst.Length
    modifies bus, dst
    ensures var c := CopyFrom(l, lba, i, partition).value;
      && rc == c.rc
      && bus.State() == c.link
      && Stored(dst, Image(bus.card, c.starts))
      && Kept(dst, 512 * |c.starts|, old(dst[..]))
  {
    ghost var l1 := SdCmd.CmdLink(l, Cmd18, lba, Cmd18CrcByte);
    assert CopyFrom(l, lba, i, partition) == AcceptedRun(l1, i, partition);
    rc := LoopAndStop(bus, dst, i, partition, l1);
  }

  /** The block loop and the stop from link `l1`, as `AcceptedRun` states them. */
  method LoopAndStop(bus: Bus, dst: array<bv8>, i: int, partition: bool, ghost l1: Link) returns (rc: int)
    requires bus.State() == l1
    requires AcceptedRun(l1, i, partition).Done?
    requires 512 * Count(i) <= dst.Length
    modifies bus, dst
    ensures var c := AcceptedRun(l1, i, partition).value;
      && rc == c.rc
      && bus.State() == c.link
      && Stored(dst, Image(l1.card, c.starts))
      && Kept(dst, 512 * |c.starts|, old(dst[..]))
  {
    rc := ReadBlocks(bus, dst, i);
    Stop(bus, partition);
  }

  /**
   * CMD18 for block `lba` with the CRC byte `crc7` yields (sd.c:188-197):
   * the reply and the link as `SdCmd.CmdFrame` states them.
   */
  method StartRead(bus: Bus, lba: bv32) returns (r: bv8)
    modifies bus
    ensures r == At(bus.card, SdCmd.ReplyAt(old(bus.State())))
    ensures bus.State() == SdCmd.CmdLink(old(bus.State()), Cmd18, lba, Cmd18CrcByte)
  {
    var crc := Crc.Cmd18Crc(lba);
    SdCmd.CmdFrame(bus.State(), Cmd18, lba, crc);
    r := SdCmd.Cmd(bus, Cmd18, lba, crc);
  }

  /** The end of both copy routines, as `StopRun` states it. */
  method Stop(bus: Bus, partition: bool)
    modifies bus
    ensures bus.State() == StopRun(old(bus.State()), partition)
  {
    if partition {
      SdCmd.CmdEnd(bus);
    }
    SdCmd.CmdFrame(bus.State(), Cmd12, 0, 0x01);
    var r := SdCmd.Cmd(bus, Cmd12, 0, 0x01);
    SdCmd.CmdEnd(bus);
  }

  /** `sd_copy(dst, src_lba, size)` (sd.c:183-226) */
  method CopyBlocks(bus: Bus, dst: array<bv8>, lba: bv32, size: nat) returns (rc: int)
    requires size < 0x1_0000_0000_0000_0000
    requires CopyRun(bus.State(), lba, size, false).Done?
    requires 512 * Count(SignedLong(size)) <= dst.Length
    modifies bus, dst
    ensures var c := CopyRun(old(bus.State()), lba, size, false).value;
      && rc == c.rc
      && bus.State() == c.link
      && Stored(dst, Image(bus.card, c.starts))
      && Kept(dst, 512 * |c.starts|, old(dst[..]))
  {
    rc := ReadMultiple(bus, dst, lba, size, false);
  }

  /**
   * `sd_copy_partition(src_lba, size)` (sd.c:228-279); `payload` stands for
   * the fixed load address the source writes to.
   */
  method CopyPartitionBlocks(bus: Bus, payload: array<bv8>, lba: bv32, size: nat) returns (rc: int)
    requires size < 0x1_0000_0000_0000_0000
    requires CopyRun(bus.State(), lba, size, true).Done?
    requires 512 * Count(SignedLong(size)) <= payload.Length
    modifies bus, payload
    ensures var c := CopyRun(old(bus.State()), lba, size, true).value;
      && rc == c.rc
      && bus.State() == c.link
      && Stored(payload, Image(bus.card, c.starts))
      && Kept(payload, 512 * |c.starts|, old(payload[..]))
  {
    rc := ReadMultiple(bus, payload, lba, size, true);
  }

  // ------------------------------------------- what a copy does, in terms of the stream

  lemma CmdLinkPos(l: Link, cmd: bv8, arg: bv32, crc: bv8)
    ensures var l1 := SdCmd.CmdLink(l, cmd, arg, crc);
      l1.card == l.card && |l1.sent| == SdCmd.ReplyAt(l) + 1
  {
  }

  /** The link `sd_cmd` leaves has exchanged the frame and every byte up to and including the reply. */
  lemma {:induction false} CmdLinkSent(l: Link, cmd: bv8, arg: bv32, crc: bv8)
    ensures var l1 := SdCmd.CmdLink(l, cmd, arg, crc);
      && l1.card == l.card
      && l1.sent == l.sent + SdCmd.CmdBytes(cmd, arg, crc) + Idle(SdCmd.ReplyAt(l) - Pos(l) - 6)
      && |l1.sent| == SdCmd.ReplyAt(l) + 1
  {
    var f := SdCmd.CmdBytes(cmd, arg, crc);
    var k := SdCmd.ReplyAt(l) - Pos(l) - 6;
    assert l.sent + (f + Idle(k)) == l.sent + f + Idle(k);
  }

  /**
   * The end of a copy transmits, besides idle bytes, exactly one CMD12
   * frame, with CRC byte 0x01, and releases chip select; in
   * `sd_copy_partition` one idle byte more comes first.
   */
  lemma StopSent(l: Link, partition: bool)
    ensures var l' := StopRun(l, partition);
      && l'.card == l.card && l'.cs == CsAuto
      && exists b :: l'.sent == l.sent + Idle(if partition then 1 else 0) + SdCmd.CmdBytes(Cmd12, 0, 0x01) + Idle(b)
  {
    var ended := if partition then SdCmd.CmdEndRun(l) else l;
    assert Idle(1) == [0xFF];
    assert l.sent + Idle(0) == l.sent;
    assert ended.sent == l.sent + Idle(if partition then 1 else 0) && ended.card == l.card;
    var f := SdCmd.CmdBytes(Cmd12, 0, 0x01);
    var k := SdCmd.ReplyAt(ended) - Pos(ended) - 6;
    CmdLinkSent(ended, Cmd12, 0, 0x01);
    var l2 := SdCmd.CmdLink(ended, Cmd12, 0, 0x01);
    IdleAppend(k, 1);
    var b := k + 1;
    calc {
      StopRun(l, partition).sent;
      l2.sent + [0xFF];
      ended.sent + f + Idle(k) + Idle(1);
      { assert ended.sent + f + Idle(k) + Idle(1) == ended.sent + f + (Idle(k) + Idle(1)); }
      ended.sent + f + Idle(b);
    }
  }

  /**
   * A copy whose CMD18 is refused (a reply other than 0): it returns 1,
   * reads no block, so writes nothing to the destination, transmits
   * nothing after the CMD18 frame but idle bytes (no CMD12), and leaves
   * chip select in AUTO.
   */
  lemma CopyRefused(l: Link, lba: bv32, size: nat, partition: bool)
    requires size < 0x1_0000_0000_0000_0000
    requires At(l.card, SdCmd.ReplyAt(l)) != 0
    ensures CopyRun(l, lba, size, partition).Done?
    ensures var c := CopyRun(l, lba, size, partition).value;
      && c.rc == ErrCmd18 && c.starts == []
      && c.link.sent == l.sent + SdCmd.CmdBytes(Cmd18, lba, 0x01) + Idle(SdCmd.ReplyAt(l) - Pos(l) - 5)
      && c.link.cs == CsAuto
  {
    var l1 := SdCmd.CmdLink(l, Cmd18, lba, Cmd18CrcByte);
    assert CopyRun(l, lba, size, partition) == Done(Copied(ErrCmd18, [], SdCmd.CmdEndRun(l1)));
    CmdLinkSent(l, Cmd18, lba, 0x01);
    var k := SdCmd.ReplyAt(l) - Pos(l) - 6;
    IdleAppend(k, 1);
    assert Idle(1) == [0xFF];
    var f := SdCmd.CmdBytes(Cmd18, lba, 0x01);
    assert l.sent + f + Idle(k) + Idle(1) == l.sent + f + (Idle(k) + Idle(1));
  }

  /**
   * Whatever the card answers, a copy that ends has read at most
   * `Count(size)` blocks, so it has written inside a destination of that
   * many blocks.
   */
  lemma CopyBound(l: Link, lba: bv32, size: nat, partition: bool)
    requires size < 0x1_0000_0000_0000_0000
    requires CopyRun(l, lba, size, partition).Done?
    ensures |CopyRun(l, lba, size, partition).value.starts| <= Count(SignedLong(size))
  {
    if At(l.card, SdCmd.ReplyAt(l)) != 0 {
      CopyRefused(l, lba, size, partition);
    } else {
      CopyReads(l, lba, size, partition);
    }
  }

  /** An accepted copy continues as `AcceptedRun` from the link CMD18 leaves. */
  lemma CopyIsAccepted(l: Link, lba: bv32, size: nat, partition: bool)
    requires size < 0x1_0000_0000_0000_0000
    requires At(l.card, SdCmd.ReplyAt(l)) == 0
    ensures CopyRun(l, lba, size, partition) == AcceptedRun(SdCmd.CmdLink(l, Cmd18, lba, Cmd18CrcByte), SignedLong(size), partition)
  {
  }

  /** `BlocksCount` and `BlocksChain` together, for a check that is `Good`. */
  lemma BlocksFacts(s: seq<bv8>, p: nat, i: int)
    requires Blocks(s, p, i, GoodAt(s)).Done?
    ensures var o := Blocks(s, p, i, GoodAt(s)).value; var ks := o.starts;
      && (o.rc == 0 || o.rc == ErrCmd18Crc)
      && 1 <= |ks| <= Count(i)
      && TokenEnd(s, p) == Some(ks[0])
      && (o.rc == 0 <==> Good(s, ks[|ks| - 1]))
      && (o.rc == 0 ==> |ks| == Count(i))
      && (forall k :: 0 <= k < |ks| - 1 ==> Good(s, ks[k]) && TokenEnd(s, ks[k] + 514) == Some(ks[k + 1]))
  {
    BlocksCount(s, p, i, GoodAt(s));
    var ks := Blocks(s, p, i, GoodAt(s)).value.starts;
    forall k | 0 <= k < |ks| - 1
      ensures Good(s, ks[k]) && TokenEnd(s, ks[k] + 514) == Some(ks[k + 1])
    {
      BlocksChain(s, p, i, GoodAt(s), k);
      GoodAtIs(s, ks[k]);
    }
    GoodAtIs(s, ks[|ks| - 1]);
  }

  /**
   * A copy whose CMD18 is accepted, block by block: the first block is the
   * one after the first 0xFE following the reply, each further block the
   * one after the first 0xFE following the previous block's CRC, and every
   * block but the last had a matching CRC. It returns 0 exactly when the
   * last block's CRC matched too, and then it has read `Count` of the
   * `long` counter blocks, which is `max(size, 1)` for a size below 2^63
   * (a count of zero or less reads one); otherwise it
   * returns 2 and reads no further block.
   */
  lemma CopyReads(l: Link, lba: bv32, size: nat, partition: bool)
    requires size < 0x1_0000_0000_0000_0000
    requires At(l.card, SdCmd.ReplyAt(l)) == 0 && CopyRun(l, lba, size, partition).Done?
    ensures var ks := CopyRun(l, lba, size, partition).value.starts;
      var rc := CopyRun(l, lba, size, partition).value.rc;
      && (rc == 0 || rc == ErrCmd18Crc)
      && 1 <= |ks| <= Count(SignedLong(size))
      && TokenEnd(l.card, SdCmd.ReplyAt(l) + 1) == Some(ks[0])
      && (rc == 0 <==> Good(l.card, ks[|ks| - 1]))
      && (rc == 0 ==> |ks| == Count(SignedLong(size)))
      && (rc == 0 && size < 0x8000_0000_0000_0000 ==> |ks| == if size == 0 then 1 else size)
      && (forall k :: 0 <= k < |ks| - 1 ==> Good(l.card, ks[k]) && TokenEnd(l.card, ks[k] + 514) == Some(ks[k + 1]))
  {
    var i := SignedLong(size);
    var l1 := SdCmd.CmdLink(l, Cmd18, lba, Cmd18CrcByte);
    CopyIsAccepted(l, lba, size, partition);
    CmdLinkPos(l, Cmd18, lba, Cmd18CrcByte);
    AcceptedBlocks(l1, i, partition);
  }

  /** `AcceptedRun` reads the blocks `Blocks` gives from the link's position on. */
  lemma AcceptedBlocks(l1: Link, i: int, partition: bool)
    requires AcceptedRun(l1, i, partition).Done?
    ensures var c := AcceptedRun(l1, i, partition).value; var ks := c.starts;
      && (c.rc == 0 || c.rc == ErrCmd18Crc)
      && 1 <= |ks| <= Count(i)
      && TokenEnd(l1.card, |l1.sent|) == Some(ks[0])
      && (c.rc == 0 <==> Good(l1.card, ks[|ks| - 1]))
      && (c.rc == 0 ==> |ks| == Count(i))
      && (forall k :: 0 <= k < |ks| - 1 ==> Good(l1.card, ks[k]) && TokenEnd(l1.card, ks[k] + 514) == Some(ks[k + 1]))
  {
    BlocksFacts(l1.card, |l1.sent|, i);
  }

  /**
   * What an accepted copy transmits: the CMD18 frame, idle bytes, one
   * CMD12 frame and idle bytes; chip select ends in AUTO. The CMD12 frame
   * is sent whether the blocks were good or not.
   */
  lemma CopyStops(l: Link, lba: bv32, size: nat, partition: bool)
    requires size < 0x1_0000_0000_0000_0000
    requires At(l.card, SdCmd.ReplyAt(l)) == 0 && CopyRun(l, lba, size, partition).Done?
    ensures var c := CopyRun(l, lba, size, partition).value;
      && c.link.cs == CsAuto
      && exists a, b :: c.link.sent ==
           l.sent + SdCmd.CmdBytes(Cmd18, lba, 0x01) + Idle(a) + SdCmd.CmdBytes(Cmd12, 0, 0x01) + Idle(b)
  {
    var l1 := SdCmd.CmdLink(l, Cmd18, lba, Cmd18CrcByte);
    CopyIsAccepted(l, lba, size, partition);
    CmdLinkSent(l, Cmd18, lba, 0x01);
    var k := SdCmd.ReplyAt(l) - Pos(l) - 6;
    var b, x := AcceptedSent(l1, SignedLong(size), partition);
    var f := SdCmd.CmdBytes(Cmd18, lba, 0x01);
    var g := SdCmd.CmdBytes(Cmd12, 0, 0x01);
    IdleAppend(k, x);
    calc {
      AcceptedRun(l1, SignedLong(size), partition).value.link.sent;
      l.sent + f + Idle(k) + Idle(x) + g + Idle(b);
      { assert l.sent + f + Idle(k) + Idle(x) == l.sent + f + (Idle(k) + Idle(x)); }
      l.sent + f + Idle(k + x) + g + Idle(b);
    }
  }

  /** What `AcceptedRun` transmits: idle bytes, the CMD12 frame, idle bytes; chip select ends in AUTO. */
  lemma AcceptedSent(l1: Link, i: int, partition: bool) returns (b: nat, x: nat)
    requires AcceptedRun(l1, i, partition).Done?
    ensures var c := AcceptedRun(l1, i, partition).value;
      && c.link.cs == CsAuto
      && c.link.sent == l1.sent + Idle(x) + SdCmd.CmdBytes(Cmd12, 0, 0x01) + Idle(b)
  {
    var o := Blocks(l1.card, |l1.sent|, i, GoodAt(l1.card)).value;
    var y := o.end - |l1.sent|;
    var l2 := SendRun(l1, Idle(y));
    StopSent(l2, partition);
    var p := if partition then 1 else 0;
    b :| StopRun(l2, partition).sent == l2.sent + Idle(p) + SdCmd.CmdBytes(Cmd12, 0, 0x01) + Idle(b);
    x := y + p;
    IdleAppend(y, p);
    assert l1.sent + Idle(y) + Idle(p) == l1.sent + (Idle(y) + Idle(p));
  }

}
