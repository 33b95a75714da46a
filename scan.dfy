/**
 * `find_sd_gpt_partition` (bootrom/sdboot/sd.c:281-307): the linear scan
 * of the GPT partition-entry array. Each block of the array is copied with
 * `sd_copy` into the shared 512-byte buffer and handed to the `gpt.h`
 * finder; the scan stops at the first block where the finder reports a
 * valid range and otherwise returns the invalid range.
 *
 * The scan is specified by `ScanFrom` on the link and the buffer's
 * contents; `FindPartition` is the loop over the real buffer, proved
 * against it.
 */
module Scan {
  import opened Spi
  import SdCmd
  import Copy
  import Gpt

  const TwoTo32: int := 0x1_0000_0000
  const TwoTo64: int := 0x1_0000_0000_0000_0000

  // -------------------------------------------------------- the arithmetic

  /**
   * How many blocks the entry array spans:
   * `(num * size + GPT_BLOCK_SIZE - 1) / GPT_BLOCK_SIZE` in `uint32_t`
   * arithmetic, so the product and the sum wrap modulo 2^32.
   */
  function EntryBlocks(num: Gpt.U32, size: Gpt.U32): (e: nat)
    ensures e < TwoTo32 / 512
  {
    ((num * size % TwoTo32 + 511) % TwoTo32) / 512
  }

  /**
   * While the product and the rounding stay below 2^32, `EntryBlocks` is
   * the number of 512-byte blocks the entries fill, the last one possibly
   * in part: the smallest count of blocks that holds them.
   */
  lemma EntryBlocksIsCeiling(num: Gpt.U32, size: Gpt.U32)
    requires num * size + 511 < TwoTo32
    ensures var t := num * size; var e := EntryBlocks(num, size);
      && t <= 512 * e
      && (e > 0 ==> 512 * (e - 1) < t)
  {
    var t := num * size;
    assert t % TwoTo32 == t;
    assert (t + 511) % TwoTo32 == t + 511;
  }

  /**
   * The wrap-around is visible: 2^24 entries of 256 bytes (4 GiB of
   * entries) make a product of 2^32, which wraps to 0, so the array is
   * taken to span no block at all.
   */
  lemma EntryBlocksWraps()
    ensures EntryBlocks(0x100_0000, 0x100) == 0
  {
    assert 0x100_0000 * 0x100 == TwoTo32;
  }

  /**
   * `partition_entries_lba_end`, exclusive: the `uint64_t` sum of the
   * first entry LBA and the block count, wrapping modulo 2^64.
   */
  function EntriesEnd(lba: Gpt.U64, num: Gpt.U32, size: Gpt.U32): (end: Gpt.U64)
    ensures lba + EntryBlocks(num, size) < TwoTo64 ==> end == lba + EntryBlocks(num, size)
    ensures lba + EntryBlocks(num, size) >= TwoTo64 ==> end < lba
  {
    (lba + EntryBlocks(num, size)) % TwoTo64
  }

  /**
   * `num_entries = GPT_BLOCK_SIZE / partition_entry_size`, an unsigned
   * 32-bit division: the number of whole entries in a block. An entry size
   * of 0 divides by zero; the model gives the RISC-V `divu` result for it,
   * all ones.
   */
  function EntriesPerBlock(size: Gpt.U32): (n: Gpt.U32)
    ensures size != 0 ==> n * size <= 512 < (n + 1) * size
  {
    if size == 0 then 0xFFFF_FFFF else 512 / size
  }

  /** `sd_copy` takes a `uint32_t` block address: the scan's 64-bit LBA is truncated to it. */
  function Lba32(i: nat): bv32
  {
    (i % TwoTo32) as bv32
  }

  // --------------------------------------------------------------- the scan

  /** The contents of the 512-byte `block_buf`. */
  type Block = b: seq<bv8> | |b| == 512 witness Idle(512)

  /**
   * The 512-byte buffer after a one-block copy that read the blocks at
   * `starts` (none or one): the block read, if any, and what the buffer
   * held before after it.
   */
  function Loaded(card: seq<bv8>, starts: seq<nat>, buf: Block): Block
    requires |starts| <= 1
  {
    Copy.Image(card, starts) + buf[512 * |starts|..]
  }

  /**
   * `sd_copy(block_buf, i, 1)` on the buffer's contents `buf`: the
   * contents and the link it leaves. Its return code is not looked at.
   */
  function CopyOne(l: Link, buf: Block, i: nat): Copy.Wait<(Block, Link)>
  {
    match Copy.CopyRun(l, Lba32(i), 1, false)
    case Forever => Copy.Forever
    case Done(c) =>
      Copy.CopyBound(l, Lba32(i), 1, false);
      Copy.Done((Loaded(l.card, c.starts, buf), c.link))
  }

  /**
   * What the scan did: the range it returns, the link and the buffer it
   * leaves, the entry LBAs it copied, in order, and the buffer contents the
   * finder was shown after each copy.
   */
  datatype Scanned = Scanned(range: Gpt.Range, link: Link, buf: Block, lbas: seq<nat>, loads: seq<seq<bv8>>)

  /** `w` with one more block, LBA `i` loaded as `b`, in front. */
  function Then(i: nat, b: seq<bv8>, w: Copy.Wait<Scanned>): Copy.Wait<Scanned>
  {
    match w
    case Forever => Copy.Forever
    case Done(s) => Copy.Done(s.(lbas := [i] + s.lbas, loads := [b] + s.loads))
  }

  /** A one-block copy into the buffer, as `CopyOne` is. */
  type Copier = (Link, Block, nat) -> Copy.Wait<(Block, Link)>

  /**
   * The `for (i = lba; i < end; i++)` loop of sd.c:296-305 from LBA `i`
   * with `n` entries per block: copy block `i` with `copy` (`CopyOne` is
   * `sd_copy(block_buf, i, 1)`, whose return code is not looked at), ask
   * the finder, return a valid range, otherwise go on; the invalid range
   * once `i` reaches `end`.
   */
  function ScanFrom(h: Gpt.Helpers, copy: Copier, l: Link, buf: Block, i: nat, end: nat, guid: Gpt.Guid, n: Gpt.U32): Copy.Wait<Scanned>
    decreases end - i
  {
    if end <= i then Copy.Done(Scanned(h.invalid, l, buf, [], []))
    else
      match copy(l, buf, i)
      case Forever => Copy.Forever
      case Done((b, l1)) =>
        var r := h.find(b, guid, n);
        if h.valid(r) then Copy.Done(Scanned(r, l1, b, [i], [b]))
        else Then(i, b, ScanFrom(h, copy, l1, b, i + 1, end, guid, n))
  }

  /** `find_sd_gpt_partition(lba, num, size, guid, block_buf)` (sd.c:281-307). */
  function ScanRun(h: Gpt.Helpers, l: Link, buf: Block, lba: Gpt.U64, num: Gpt.U32, size: Gpt.U32, guid: Gpt.Guid): Copy.Wait<Scanned>
  {
    ScanFrom(h, CopyOne, l, buf, lba, EntriesEnd(lba, num, size), guid, EntriesPerBlock(size))
  }

  /** The part of a scan's result the caller sees: the range, the link and the buffer. */
  function Final(w: Scanned): (Gpt.Range, Link, Block)
  {
    (w.range, w.link, w.buf)
  }

  /** The finder reported a valid range for the last block shown to it. */
  predicate Matched(h: Gpt.Helpers, w: Scanned, guid: Gpt.Guid, n: Gpt.U32)
  {
    |w.loads| > 0 && h.valid(h.find(w.loads[|w.loads| - 1], guid, n))
  }

  // ------------------------------------------------------------ the method

  /**
   * One pass of the loop body (sd.c:297-304): copy block `i` into the
   * buffer and ask the finder about the buffer.
   */
  method ScanStep(bus: Bus, buf: array<bv8>, i: nat, guid: Gpt.Guid, n: Gpt.U32, h: Gpt.Helpers)
    returns (r: Gpt.Range, found: bool)
    requires buf.Length == 512
    requires CopyOne(bus.State(), buf[..], i).Done?
    modifies bus, buf
    ensures (buf[..], bus.State()) == CopyOne(old(bus.State()), old(buf[..]), i).value
    ensures r == h.find(buf[..], guid, n) && found == h.valid(r)
  {
    ghost var l := bus.State();
    ghost var b := buf[..];
    var rc := Copy.CopyBlocks(bus, buf, Lba32(i), 1);
    ghost var c := Copy.CopyRun(l, Lba32(i), 1, false).value;
    Copy.CopyBound(l, Lba32(i), 1, false);
    Copy.StoredOver(buf, Copy.Image(l.card, c.starts), b);
    assert (buf[..], bus.State()) == CopyOne(l, b, i).value;
    r := h.find(buf[..], guid, n);
    found := h.valid(r);
  }

  /**
   * One turn of the scan, for any copier: a scan from `i < end` that ends
   * copied block `i`; it returns what the finder found there if that is
   * valid, and otherwise what the scan from `i + 1` returns.
   */
  lemma ScanTurn(h: Gpt.Helpers, copy: Copier, l: Link, buf: Block, i: nat, end: nat, guid: Gpt.Guid, n: Gpt.U32)
    requires i < end && ScanFrom(h, copy, l, buf, i, end, guid, n).Done?
    ensures copy(l, buf, i).Done?
    ensures var (b, l1) := copy(l, buf, i).value;
      var w := ScanFrom(h, copy, l, buf, i, end, guid, n).value;
      && (h.valid(h.find(b, guid, n)) ==> Final(w) == (h.find(b, guid, n), l1, b))
      && (!h.valid(h.find(b, guid, n)) ==>
            ScanFrom(h, copy, l1, b, i + 1, end, guid, n).Done?
            && Final(w) == Final(ScanFrom(h, copy, l1, b, i + 1, end, guid, n).value))
  {
  }

  /**
   * `find_sd_gpt_partition(lba, num, size, guid, block_buf)` (sd.c:281-307)
   * on the shared buffer `buf`: it returns the range `ScanRun` gives and
   * leaves the link and the buffer as `ScanRun` says.
   */
  method FindPartition(bus: Bus, buf: array<bv8>, lba: Gpt.U64, num: Gpt.U32, size: Gpt.U32, guid: Gpt.Guid, h: Gpt.Helpers)
    returns (r: Gpt.Range)
    requires buf.Length == 512
    requires ScanRun(h, bus.State(), buf[..], lba, num, size, guid).Done?
    modifies bus, buf
    ensures Final(ScanRun(h, old(bus.State()), old(buf[..]), lba, num, size, guid).value) == (r, bus.State(), buf[..])
  {
    var end := EntriesEnd(lba, num, size);
    var n := EntriesPerBlock(size);
    r := ScanLoop(bus, buf, lba, end, guid, n, h);
  }

  /** The `for` loop of sd.c:296-305, from LBA `i` up to `end`. */
  method ScanLoop(bus: Bus, buf: array<bv8>, i0: nat, end: nat, guid: Gpt.Guid, n: Gpt.U32, h: Gpt.Helpers)
    returns (r: Gpt.Range)
    requires buf.Length == 512
    requires ScanFrom(h, CopyOne, bus.State(), buf[..], i0, end, guid, n).Done?
    modifies bus, buf
    ensures Final(ScanFrom(h, CopyOne, old(bus.State()), old(buf[..]), i0, end, guid, n).value) == (r, bus.State(), buf[..])
  {
    ghost var goal := Final(ScanFrom(h, CopyOne, bus.State(), buf[..], i0, end, guid, n).value);
    ghost var l: Link, b: Block := bus.State(), buf[..];
    var i := i0;
    while i < end
      invariant l == bus.State() && b == buf[..]
      invariant ScanFrom(h, CopyOne, l, b, i, end, guid, n).Done?
      invariant Final(ScanFrom(h, CopyOne, l, b, i, end, guid, n).value) == goal
      decreases end - i
    {
      ScanTurn(h, CopyOne, l, b, i, end, guid, n);
      var found;
      r, found := ScanStep(bus, buf, i, guid, n, h);
      ghost var next := CopyOne(l, b, i).value;
      b, l := next.0, next.1;
      if found {
        return;
      }
      assert ScanFrom(h, CopyOne, next.1, next.0, i + 1, end, guid, n).Done?;
      assert ScanFrom(h, CopyOne, l, b, i + 1, end, guid, n).Done?;
      i := i + 1;
    }
    r := h.invalid;
  }

  // ------------------------------------------------------------ the lemmas

  /**
   * The shape of a scan from LBA `i`: it copies the LBAs `i, i+1, ...` in
   * increasing order, one block each; the finder found nothing in every
   * block but the last; if it found a valid range in the last, that range
   * is returned, and otherwise the scan returns the invalid range after
   * copying every block from `i` up to `end`. The buffer it leaves is the
   * last one the finder was shown.
   */
  lemma {:induction false} ScanShape(h: Gpt.Helpers, copy: Copier, l: Link, buf: Block, i: nat, end: nat, guid: Gpt.Guid, n: Gpt.U32)
    requires ScanFrom(h, copy, l, buf, i, end, guid, n).Done?
    ensures var w := ScanFrom(h, copy, l, buf, i, end, guid, n).value;
      && |w.lbas| == |w.loads|
      && (forall k :: 0 <= k < |w.lbas| ==> w.lbas[k] == i + k)
      && (forall k :: 0 <= k < |w.loads| - 1 ==> !h.valid(h.find(w.loads[k], guid, n)))
      && (Matched(h, w, guid, n) ==> w.range == h.find(w.loads[|w.loads| - 1], guid, n))
      && (!Matched(h, w, guid, n) ==>
            w.range == h.invalid && |w.lbas| == (if i < end then end - i else 0))
      && (|w.loads| > 0 ==> w.buf == w.loads[|w.loads| - 1])
      && (|w.loads| == 0 ==> w.buf == buf && w.link == l)
    decreases end - i
  {
    if i < end {
      var (b, l1) := copy(l, buf, i).value;
      if !h.valid(h.find(b, guid, n)) {
        ScanShape(h, copy, l1, b, i + 1, end, guid, n);
        var rest := ScanFrom(h, copy, l1, b, i + 1, end, guid, n).value;
        var w := ScanFrom(h, copy, l, buf, i, end, guid, n).value;
        assert w == rest.(lbas := [i] + rest.lbas, loads := [b] + rest.loads);
        assert Matched(h, w, guid, n) <==> Matched(h, rest, guid, n);
        forall k | 0 <= k < |w.loads| - 1
          ensures !h.valid(h.find(w.loads[k], guid, n))
        {
          if k > 0 {
            assert w.loads[k] == rest.loads[k - 1];
          }
        }
      }
    }
  }

  /**
   * The scan of `find_sd_gpt_partition`: it starts at the header's
   * PartitionEntryLBA, and when the finder finds nothing it has copied
   * exactly `EntryBlocks(num, size)` blocks, or none when the end LBA
   * wraps past 2^64.
   */
  lemma ScanCount(h: Gpt.Helpers, l: Link, buf: Block, lba: Gpt.U64, num: Gpt.U32, size: Gpt.U32, guid: Gpt.Guid)
    requires ScanRun(h, l, buf, lba, num, size, guid).Done?
    ensures var w := ScanRun(h, l, buf, lba, num, size, guid).value;
      var e := EntryBlocks(num, size);
      && (|w.lbas| > 0 ==> w.lbas[0] == lba)
      && (!Matched(h, w, guid, EntriesPerBlock(size)) ==>
            w.range == h.invalid && |w.lbas| == if (lba) + e < TwoTo64 then e else 0)
  {
    ScanShape(h, CopyOne, l, buf, lba, EntriesEnd(lba, num, size), guid, EntriesPerBlock(size));
  }

  /**
   * A copy whose CMD18 is refused leaves the buffer as it was, and the
   * scan neither stops nor retries: the finder is shown the old contents
   * of the buffer (on the first block, the GPT header) and the next LBA
   * follows.
   */
  lemma ScanAfterRefusedCopy(h: Gpt.Helpers, l: Link, buf: Block, i: nat, end: nat, guid: Gpt.Guid, n: Gpt.U32)
    requires i < end
    requires At(l.card, SdCmd.ReplyAt(l)) != 0
    requires ScanFrom(h, CopyOne, l, buf, i, end, guid, n).Done?
    ensures var w := ScanFrom(h, CopyOne, l, buf, i, end, guid, n).value;
      && |w.loads| > 0 && w.loads[0] == buf && w.lbas[0] == i
      && (!h.valid(h.find(buf, guid, n)) ==>
            w.lbas[1..] == ScanFrom(h, CopyOne, CopyOne(l, buf, i).value.1, buf, i + 1, end, guid, n).value.lbas)
  {
    Copy.CopyRefused(l, Lba32(i), 1, false);
    var c := Copy.CopyRun(l, Lba32(i), 1, false).value;
    assert Loaded(l.card, c.starts, buf) == buf;
  }
}
