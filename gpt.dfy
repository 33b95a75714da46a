/**
 * What the boot ROM needs of the GUID Partition Table (section 5.3 of the
 * UEFI Specification): the partition-type GUIDs of bootrom/sdboot/sd.c:23-35
 * with their mixed-endian byte encoding, the three partition-entry fields of
 * the GPT header, and the `gpt.h` helpers the boot ROM calls.
 */
module Gpt {

  /** A GUID as the 16 bytes stored on disk. */
  type Guid = seq<bv8>

  // ------------------------------------------------- little-endian fields

  /** A 16-bit value as two bytes, least significant first. */
  function Le16(x: bv16): seq<bv8>
  {
    [(x & 0xFF) as bv8, (x >> 8) as bv8]
  }

  /** A 32-bit value as four bytes, least significant first. */
  function Le32(x: bv32): seq<bv8>
  {
    [(x & 0xFF) as bv8, ((x >> 8) & 0xFF) as bv8, ((x >> 16) & 0xFF) as bv8, (x >> 24) as bv8]
  }

  /** The little-endian 16-bit value stored at `b[at..at+2]`. */
  function Get16(b: seq<bv8>, at: nat): bv16
    requires at + 2 <= |b|
  {
    (b[at] as bv16) | ((b[at + 1] as bv16) << 8)
  }

  /** The little-endian 32-bit value stored at `b[at..at+4]`. */
  function Get32(b: seq<bv8>, at: nat): bv32
    requires at + 4 <= |b|
  {
    (b[at] as bv32) | ((b[at + 1] as bv32) << 8) | ((b[at + 2] as bv32) << 16) | ((b[at + 3] as bv32) << 24)
  }

  /** Reading back what `Le16` and `Le32` wrote gives the value. */
  lemma LeRoundTrip(x: bv16, y: bv32)
    ensures Get16(Le16(x), 0) == x && Get32(Le32(y), 0) == y
  {
  }

  // --------------------------------------------------------------- GUIDs

  /**
   * The on-disk bytes of the GUID written `d1-d2-d3-d4`: the first three
   * groups little-endian (byte-reversed from their text), the last eight
   * bytes as written.
   */
  function GuidBytes(d1: bv32, d2: bv16, d3: bv16, d4: seq<bv8>): (g: Guid)
    requires |d4| == 8
    ensures |g| == 16 && g[8..] == d4
  {
    Le32(d1) + Le16(d2) + Le16(d3) + d4
  }

  /** The four groups of a GUID stored as `g`. */
  function GuidFields(g: Guid): (bv32, bv16, bv16, seq<bv8>)
    requires |g| == 16
  {
    (Get32(g, 0), Get16(g, 4), Get16(g, 6), g[8..])
  }

  /** Encoding the groups and reading them back gives the groups. */
  lemma GuidFieldsOfBytes(d1: bv32, d2: bv16, d3: bv16, d4: seq<bv8>)
    requires |d4| == 8
    ensures GuidFields(GuidBytes(d1, d2, d3, d4)) == (d1, d2, d3, d4)
  {
    var g := GuidBytes(d1, d2, d3, d4);
    LeRoundTrip(d2, d1);
    LeRoundTrip(d3, d1);
    assert g[..4] == Le32(d1) && g[4..6] == Le16(d2) && g[6..8] == Le16(d3);
    assert Get32(g, 0) == Get32(Le32(d1), 0);
    assert Get16(g, 4) == Get16(Le16(d2), 0);
    assert Get16(g, 6) == Get16(Le16(d3), 0);
  }

  /** Writing back what `Get16` read gives the two bytes. */
  lemma Get16RoundTrip(b: seq<bv8>, at: nat)
    requires at + 2 <= |b|
    ensures Le16(Get16(b, at)) == b[at..at + 2]
  {
    var a0, a1 := b[at], b[at + 1];
    var x := (a0 as bv16) | ((a1 as bv16) << 8);
    assert Le16(x) == [a0, a1];
    assert b[at..at + 2] == [a0, a1];
  }

  /** Writing back what `Get32` read gives the four bytes. */
  lemma Get32RoundTrip(b: seq<bv8>, at: nat)
    requires at + 4 <= |b|
    ensures Le32(Get32(b, at)) == b[at..at + 4]
  {
    var a0, a1, a2, a3 := b[at], b[at + 1], b[at + 2], b[at + 3];
    var x := (a0 as bv32) | ((a1 as bv32) << 8) | ((a2 as bv32) << 16) | ((a3 as bv32) << 24);
    assert Le32(x) == [a0, a1, a2, a3];
    assert b[at..at + 4] == [a0, a1, a2, a3];
  }

  /** Every 16 bytes are the encoding of the groups read from them. */
  lemma GuidBytesOfFields(g: Guid)
    requires |g| == 16
    ensures var (d1, d2, d3, d4) := GuidFields(g); GuidBytes(d1, d2, d3, d4) == g
  {
    Get32RoundTrip(g, 0);
    Get16RoundTrip(g, 4);
    Get16RoundTrip(g, 6);
    assert g == g[0..4] + g[4..6] + g[6..8] + g[8..];
  }

  /** `gpt_guid_efi`, the EFI system partition (sd.c:23-27). */
  const EfiGuid: Guid :=
    [0x28, 0x73, 0x2a, 0xc1, 0x1f, 0xf8, 0xd2, 0x11, 0xba, 0x4b, 0x00, 0xa0, 0xc9, 0x3e, 0xc9, 0x3b]

  /** `gpt_guid_sifive_fsbl`, the partition the boot ROM loads (sd.c:28-31). */
  const FsblGuid: Guid :=
    [0x00, 0x33, 0x19, 0x5b, 0x78, 0xfc, 0xcd, 0x40, 0x80, 0x02, 0xe8, 0x6c, 0x45, 0x58, 0x0b, 0x47]

  /** `gpt_guid_sifive_bare_metal` (sd.c:32-35). */
  const BareMetalGuid: Guid :=
    [0x53, 0xb3, 0x54, 0x2e, 0x71, 0x12, 0x42, 0x48, 0x80, 0x6f, 0xe4, 0x36, 0xd6, 0xaf, 0x69, 0x85]

  /** `gpt_guid_efi` is the encoding of c12a7328-f81f-11d2-ba4b-00a0c93ec93b. */
  lemma EfiGuidIsItsText()
    ensures EfiGuid == GuidBytes(0xc12a7328, 0xf81f, 0x11d2, [0xba, 0x4b, 0x00, 0xa0, 0xc9, 0x3e, 0xc9, 0x3b])
  {
  }

  /** `gpt_guid_sifive_fsbl` is the encoding of 5b193300-fc78-40cd-8002-e86c45580b47. */
  lemma FsblGuidIsItsText()
    ensures FsblGuid == GuidBytes(0x5b193300, 0xfc78, 0x40cd, [0x80, 0x02, 0xe8, 0x6c, 0x45, 0x58, 0x0b, 0x47])
  {
  }

  /** `gpt_guid_sifive_bare_metal` is the encoding of 2e54b353-1271-4842-806f-e436d6af6985. */
  lemma BareMetalGuidIsItsText()
    ensures BareMetalGuid == GuidBytes(0x2e54b353, 0x1271, 0x4842, [0x80, 0x6f, 0xe4, 0x36, 0xd6, 0xaf, 0x69, 0x85])
  {
  }

  // ---------------------------------------------------------- the header

  /** The values of `uint32_t` and `uint64_t`. */
  type U32 = x: int | 0 <= x < 0x1_0000_0000
  type U64 = x: int | 0 <= x < 0x1_0000_0000_0000_0000

  /**
   * The three fields of the GPT header `main` passes on (sd.c:337-339):
   * PartitionEntryLBA, NumberOfPartitionEntries and SizeOfPartitionEntry
   * (section 5.3.2 of the UEFI Specification).
   */
  datatype Header = Header(entriesLba: U64, numEntries: U32, entrySize: U32)

  // ----------------------------------------------------------- the range

  /** `gpt_partition_range`: the first and last LBA of a partition. */
  datatype Range = Range(first: U64, last: U64)

  /**
   * The `gpt.h` helpers, whose code is not part of this model: `header`
   * reads the three fields of the `gpt_header` structure at the start of a
   * block, `gpt_find_partition_by_guid(buf, guid, n)` looks through the
   * first `n` entries in a block, `gpt_is_valid_partition_range` is meant
   * to tell a found range from the not-found one, which
   * `gpt_invalid_partition_range()` returns. The datatype does not demand
   * that `invalid` fails `valid`; `Boot.NotFoundIsFatal` takes it as its
   * hypothesis.
   */
  datatype Helpers = Helpers(
    header: seq<bv8> -> Header,
    find: (seq<bv8>, Guid, U32) -> Range,
    valid: Range -> bool,
    invalid: Range)
}
