/**
 * `main` of the SD boot ROM (bootrom/sdboot/sd.c:309-363): power the card
 * up, bring it up with CMD0, CMD8, ACMD41, CMD58 and CMD16, copy the GPT
 * header (block 1) into a 512-byte buffer, scan the partition entries for
 * the SiFive FSBL partition type, and copy that partition to the payload
 * area with `sd_copy_partition`. Every failure ends the boot with 1; a
 * complete load returns 0.
 */
module Boot {
  import opened Spi
  import SdCmd
  import Copy
  import Gpt
  import Scan

  /** GPT_HEADER_LBA: the GPT header is block 1 of the card. */
  const HeaderLba: bv32 := 1

  const TwoTo64: int := 0x1_0000_0000_0000_0000

  // ------------------------------------------------------------- bring-up

  /**
   * `sd_cmd0() || sd_cmd8() || sd_acmd41() || sd_cmd58() || sd_cmd16()`
   * (sd.c:314): the five steps in order, stopping at the first that fails;
   * true when one failed.
   */
  function BringUpRun(l: Link): (bool, Link)
  {
    var (f0, l0) := SdCmd.Cmd0Run(l);
    if f0 then (true, l0) else
    var (f8, l8) := SdCmd.Cmd8Run(l0);
    if f8 then (true, l8) else
    var (r41, l41) := SdCmd.Acmd41Run(l8);
    if r41 != 0 then (true, l41) else
    var (f58, l58) := SdCmd.Cmd58Run(l41);
    if f58 then (true, l58) else
    SdCmd.Cmd16Run(l58)
  }

  /** The bring-up sequence of sd.c:314 on the controller. */
  method BringUp(bus: Bus) returns (down: bool)
    modifies bus
    ensures (down, bus.State()) == BringUpRun(old(bus.State()))
  {
    down := SdCmd.Cmd0(bus);
    if down {
      return;
    }
    down := SdCmd.Cmd8(bus);
    if down {
      return;
    }
    var r;
    down, r := SdCmd.Acmd41(bus);
    if down {
      return;
    }
    down := SdCmd.Cmd58(bus);
    if down {
      return;
    }
    down := SdCmd.Cmd16(bus);
  }

  /**
   * The bring-up sends no command after the first that fails: it ends with
   * the link that step leaves, and it succeeds only when all five do.
   */
  lemma BringUpStops(l: Link)
    ensures var (f0, l0) := SdCmd.Cmd0Run(l);
      var (f8, l8) := SdCmd.Cmd8Run(l0);
      var (r41, l41) := SdCmd.Acmd41Run(l8);
      var (f58, l58) := SdCmd.Cmd58Run(l41);
      var (f16, l16) := SdCmd.Cmd16Run(l58);
      && (f0 ==> BringUpRun(l) == (true, l0))
      && (!f0 && f8 ==> BringUpRun(l) == (true, l8))
      && (!f0 && !f8 && r41 != 0 ==> BringUpRun(l) == (true, l41))
      && (!f0 && !f8 && r41 == 0 && f58 ==> BringUpRun(l) == (true, l58))
      && (!f0 && !f8 && r41 == 0 && !f58 ==> BringUpRun(l) == (f16, l16))
      && (!BringUpRun(l).0 <==> !f0 && !f8 && r41 == 0 && !f58 && !f16)
  {
  }

  // ------------------------------------------------------------ the boot

  /**
   * What `main` did: its exit status, the link it leaves, the partition
   * range it loaded (the invalid range when it got no range), the
   * positions of the payload blocks it read, and how many blocks the
   * payload copy may write (0 when it made none).
   */
  datatype Booted = Booted(rc: int, link: Link, range: Gpt.Range, starts: seq<nat>, need: nat)

  /** The `size_t` block count of sd.c:354: `last_lba + 1 - first_lba`, modulo 2^64. */
  function PayloadSize(r: Gpt.Range): (size: Gpt.U64)
    ensures r.first <= r.last && r.last - r.first + 1 < TwoTo64 ==> size == r.last - r.first + 1
  {
    (r.last + 1 - r.first) % TwoTo64
  }

  /** The GPT buffer before the header is copied into it: `new`, all zeros. */
  function Fresh(): Scan.Block
  {
    seq(512, _ => 0)
  }

  /** `main` from the power-up on (sd.c:313-363). */
  function BootRun(h: Gpt.Helpers, l: Link): Copy.Wait<Booted>
  {
    var (down, l1) := BringUpRun(SdCmd.PowerOnRun(l));
    if down then Copy.Done(Booted(1, l1, h.invalid, [], 0))
    else HeaderRun(h, l1)
  }

  /** `main` after the bring-up: `sd_copy(gpt_buf, GPT_HEADER_LBA, 1)` and what follows (sd.c:326-328). */
  function HeaderRun(h: Gpt.Helpers, l: Link): Copy.Wait<Booted>
  {
    match Copy.CopyRun(l, HeaderLba, 1, false)
    case Forever => Copy.Forever
    case Done(c) =>
      if c.rc != 0 then Copy.Done(Booted(1, c.link, h.invalid, [], 0))
      else
        Copy.CopyBound(l, HeaderLba, 1, false);
        FindRun(h, c.link, Scan.Loaded(l.card, c.starts, Fresh()))
  }

  /**
   * `main` once the header is in `gpt`: the scan for the FSBL partition
   * with the header's three fields, and what follows (sd.c:331-348).
   */
  function FindRun(h: Gpt.Helpers, l: Link, gpt: Scan.Block): Copy.Wait<Booted>
  {
    var hd := h.header(gpt);
    match Scan.ScanRun(h, l, gpt, hd.entriesLba, hd.numEntries, hd.entrySize, Gpt.FsblGuid)
    case Forever => Copy.Forever
    case Done(sc) =>
      if !h.valid(sc.range) then Copy.Done(Booted(1, sc.link, h.invalid, [], 0))
      else PayloadRun(sc.link, sc.range)
  }

  /** `sd_copy_partition(first_lba, last_lba + 1 - first_lba)` and the exit status (sd.c:350-363). */
  function PayloadRun(l: Link, r: Gpt.Range): Copy.Wait<Booted>
  {
    var size := PayloadSize(r);
    match Copy.CopyRun(l, Scan.Lba32(r.first), size, true)
    case Forever => Copy.Forever
    case Done(c) => Copy.Done(Booted(if c.rc != 0 then 1 else 0, c.link, r, c.starts, Copy.Count(Copy.SignedLong(size))))
  }

  // ---------------------------------------------------------- the methods

  /**
   * `main` (sd.c:309-363) with the SiFive FSBL partition as target;
   * `payload` stands for the fixed load area, which must hold the blocks
   * the payload copy may write.
   */
  method BootSd(bus: Bus, payload: array<bv8>, h: Gpt.Helpers) returns (rc: int)
    requires BootRun(h, bus.State()).Done?
    requires 512 * BootRun(h, bus.State()).value.need <= payload.Length
    modifies bus, payload
    ensures var b := BootRun(h, old(bus.State())).value;
      && rc == b.rc
      && bus.State() == b.link
      && Copy.Stored(payload, Copy.Image(bus.card, b.starts))
      && Copy.Kept(payload, 512 * |b.starts|, old(payload[..]))
  {
    SdCmd.PowerOn(bus);
    var down := BringUp(bus);
    if down {
      return 1;
    }
    rc := LoadHeader(bus, payload, h);
  }

  /** `main` after the bring-up (sd.c:319-363). */
  method LoadHeader(bus: Bus, payload: array<bv8>, h: Gpt.Helpers) returns (rc: int)
    requires HeaderRun(h, bus.State()).Done?
    requires 512 * HeaderRun(h, bus.State()).value.need <= payload.Length
    modifies bus, payload
    ensures var b := HeaderRun(h, old(bus.State())).value;
      && rc == b.rc
      && bus.State() == b.link
      && Copy.Stored(payload, Copy.Image(bus.card, b.starts))
      && Copy.Kept(payload, 512 * |b.starts|, old(payload[..]))
  {
    var gptBuf := new bv8[512](_ => 0);
    assert gptBuf[..] == Fresh();
    rc := HeaderInto(bus, gptBuf, payload, h);
  }

  /** `sd_copy(gpt_buf, GPT_HEADER_LBA, 1)` into the fresh buffer and what follows (sd.c:326-363). */
  method HeaderInto(bus: Bus, gptBuf: array<bv8>, payload: array<bv8>, h: Gpt.Helpers) returns (rc: int)
    requires gptBuf.Length == 512 && gptBuf != payload && gptBuf[..] == Fresh()
    requires HeaderRun(h, bus.State()).Done?
    requires 512 * HeaderRun(h, bus.State()).value.need <= payload.Length
    modifies bus, gptBuf, payload
    ensures var b := HeaderRun(h, old(bus.State())).value;
      && rc == b.rc
      && bus.State() == b.link
      && Copy.Stored(payload, Copy.Image(bus.card, b.starts))
      && Copy.Kept(payload, 512 * |b.starts|, old(payload[..]))
  {
    ghost var l := bus.State();
    var error := Copy.CopyBlocks(bus, gptBuf, HeaderLba, 1);
    if error != 0 {
      return 1;
    }
    ghost var c := Copy.CopyRun(l, HeaderLba, 1, false).value;
    Copy.CopyBound(l, HeaderLba, 1, false);
    Copy.StoredOver(gptBuf, Copy.Image(l.card, c.starts), Fresh());
    assert gptBuf[..] == Scan.Loaded(l.card, c.starts, Fresh());
    rc := Find(bus, gptBuf, payload, h);
  }

  /** `main` once the header is in `gptBuf` (sd.c:331-363). */
  method Find(bus: Bus, gptBuf: array<bv8>, payload: array<bv8>, h: Gpt.Helpers) returns (rc: int)
    requires gptBuf.Length == 512 && gptBuf != payload
    requires FindRun(h, bus.State(), gptBuf[..]).Done?
    requires 512 * FindRun(h, bus.State(), gptBuf[..]).value.need <= payload.Length
    modifies bus, gptBuf, payload
    ensures var b := FindRun(h, old(bus.State()), old(gptBuf[..])).value;
      && rc == b.rc
      && bus.State() == b.link
      && Copy.Stored(payload, Copy.Image(bus.card, b.starts))
      && Copy.Kept(payload, 512 * |b.starts|, old(payload[..]))
  {
    var hd := h.header(gptBuf[..]);
    var range := Scan.FindPartition(bus, gptBuf, hd.entriesLba, hd.numEntries, hd.entrySize, Gpt.FsblGuid, h);
    if !h.valid(range) {
      return 1;
    }
    rc := LoadPayload(bus, payload, range);
  }

  /** `sd_copy_partition` of the range found, and the exit status (sd.c:350-363). */
  method LoadPayload(bus: Bus, payload: array<bv8>, r: Gpt.Range) returns (rc: int)
    requires PayloadRun(bus.State(), r).Done?
    requires 512 * PayloadRun(bus.State(), r).value.need <= payload.Length
    modifies bus, payload
    ensures var b := PayloadRun(old(bus.State()), r).value;
      && rc == b.rc
      && bus.State() == b.link
      && Copy.Stored(payload, Copy.Image(bus.card, b.starts))
      && Copy.Kept(payload, 512 * |b.starts|, old(payload[..]))
  {
    var error := Copy.CopyPartitionBlocks(bus, payload, Scan.Lba32(r.first), PayloadSize(r));
    rc := if error != 0 then 1 else 0;
  }

  // ----------------------------------------------------------- the lemmas

  /**
   * A header copy that returns 0 has read exactly one block, so the
   * buffer the scan reads is that block whatever it held before: the
   * uninitialised stack buffer of sd.c:319 does not matter.
   */
  lemma HeaderFilled(l: Link, before: Scan.Block)
    requires Copy.CopyRun(l, HeaderLba, 1, false).Done?
    requires Copy.CopyRun(l, HeaderLba, 1, false).value.rc == 0
    ensures var c := Copy.CopyRun(l, HeaderLba, 1, false).value;
      |c.starts| == 1 && Scan.Loaded(l.card, c.starts, before) == Copy.Bytes(l.card, c.starts[0], 512)
  {
    var c := Copy.CopyRun(l, HeaderLba, 1, false).value;
    if At(l.card, SdCmd.ReplyAt(l)) != 0 {
      Copy.CopyRefused(l, HeaderLba, 1, false);
    } else {
      Copy.CopyReads(l, HeaderLba, 1, false);
      assert c.starts == [] + [c.starts[0]];
      Copy.ImageSnoc(l.card, [], c.starts[0]);
    }
  }

  /**
   * The outcome `main` promises, whatever stage it stopped at: status 0
   * or 1; payload blocks only for a valid range; and status 0 only with a
   * valid range whose every block was loaded with a matching CRC16.
   */
  predicate Sound(h: Gpt.Helpers, b: Booted)
  {
    && (b.rc == 0 || b.rc == 1)
    && (b.starts != [] ==> h.valid(b.range))
    && (b.rc == 0 ==>
          && h.valid(b.range)
          && |b.starts| == b.need == Copy.Count(Copy.SignedLong(PayloadSize(b.range)))
          && forall k :: 0 <= k < |b.starts| ==> Copy.Good(b.link.card, b.starts[k]))
  }

  /**
   * The payload copy of a valid range: a 0 means it read every block of
   * the range's count, each with a matching CRC16.
   */
  lemma PayloadOutcome(h: Gpt.Helpers, l: Link, r: Gpt.Range)
    requires h.valid(r) && PayloadRun(l, r).Done?
    ensures Sound(h, PayloadRun(l, r).value)
  {
    var size := PayloadSize(r);
    if At(l.card, SdCmd.ReplyAt(l)) != 0 {
      Copy.CopyRefused(l, Scan.Lba32(r.first), size, true);
    } else {
      Copy.CopyReads(l, Scan.Lba32(r.first), size, true);
    }
  }

  /**
   * The scan and what follows: a range that is not valid ends `main` with
   * 1 and no payload copy; a valid one is the range the payload copy
   * loads.
   */
  lemma FindOutcome(h: Gpt.Helpers, l: Link, gpt: Scan.Block)
    requires FindRun(h, l, gpt).Done?
    ensures var hd := h.header(gpt);
      var sc := Scan.ScanRun(h, l, gpt, hd.entriesLba, hd.numEntries, hd.entrySize, Gpt.FsblGuid);
      var b := FindRun(h, l, gpt).value;
      && sc.Done?
      && (!h.valid(sc.value.range) ==> b == Booted(1, sc.value.link, h.invalid, [], 0))
      && (h.valid(sc.value.range) ==> b.range == sc.value.range)
      && Sound(h, b)
  {
    var hd := h.header(gpt);
    var sc := Scan.ScanRun(h, l, gpt, hd.entriesLba, hd.numEntries, hd.entrySize, Gpt.FsblGuid).value;
    if h.valid(sc.range) {
      PayloadOutcome(h, sc.link, sc.range);
    }
  }

  /**
   * A missing FSBL partition is fatal: when the not-found range is not
   * valid and the finder reports no valid range for any block the scan
   * copied, `main` ends with 1 and loads nothing; a 0 needs a block in
   * which the finder found the range that was loaded.
   */
  lemma NotFoundIsFatal(h: Gpt.Helpers, l: Link, gpt: Scan.Block)
    requires !h.valid(h.invalid)
    requires FindRun(h, l, gpt).Done?
    ensures var hd := h.header(gpt);
      var n := Scan.EntriesPerBlock(hd.entrySize);
      var w := Scan.ScanRun(h, l, gpt, hd.entriesLba, hd.numEntries, hd.entrySize, Gpt.FsblGuid).value;
      var b := FindRun(h, l, gpt).value;
      && ((forall k :: 0 <= k < |w.loads| ==> !h.valid(h.find(w.loads[k], Gpt.FsblGuid, n))) ==>
            b.rc == 1 && b.starts == [])
      && (b.rc == 0 ==>
            && Scan.Matched(h, w, Gpt.FsblGuid, n)
            && b.range == h.find(w.loads[|w.loads| - 1], Gpt.FsblGuid, n))
  {
    var hd := h.header(gpt);
    var n := Scan.EntriesPerBlock(hd.entrySize);
    Scan.ScanShape(h, Scan.CopyOne, l, gpt, hd.entriesLba, Scan.EntriesEnd(hd.entriesLba, hd.numEntries, hd.entrySize), Gpt.FsblGuid, n);
    FindOutcome(h, l, gpt);
  }

  /**
   * The header copy and what follows: a failed header copy ends `main`
   * with 1 and no payload copy; a 0 needs a header block that arrived
   * with a matching CRC16.
   */
  lemma HeaderOutcome(h: Gpt.Helpers, l: Link)
    requires HeaderRun(h, l).Done?
    ensures var c := Copy.CopyRun(l, HeaderLba, 1, false);
      var b := HeaderRun(h, l).value;
      && c.Done?
      && (c.value.rc != 0 ==> b == Booted(1, c.value.link, h.invalid, [], 0))
      && (b.rc == 0 ==> c.value.rc == 0 && |c.value.starts| == 1 && Copy.Good(l.card, c.value.starts[0]))
      && Sound(h, b)
  {
    var c := Copy.CopyRun(l, HeaderLba, 1, false).value;
    if c.rc == 0 {
      Copy.CopyBound(l, HeaderLba, 1, false);
      HeaderFilled(l, Fresh());
      Copy.CopyReads(l, HeaderLba, 1, false);
      FindOutcome(h, c.link, Scan.Loaded(l.card, c.starts, Fresh()));
    }
  }

  /**
   * What `main` returns (sd.c:309-363): a failed bring-up ends it with 1,
   * nothing sent after the failing command and nothing loaded; otherwise
   * its outcome is `Sound`, so a 0 means the bring-up succeeded, a valid
   * range was found, and every block of the range's count was loaded with
   * a matching CRC16.
   */
  lemma BootOutcome(h: Gpt.Helpers, l: Link)
    requires BootRun(h, l).Done?
    ensures var b := BootRun(h, l).value;
      var (down, l1) := BringUpRun(SdCmd.PowerOnRun(l));
      && (down ==> b == Booted(1, l1, h.invalid, [], 0))
      && (b.rc == 0 ==> !down)
      && Sound(h, b)
  {
    var (down, l1) := BringUpRun(SdCmd.PowerOnRun(l));
    if !down {
      HeaderOutcome(h, l1);
    }
  }
}
