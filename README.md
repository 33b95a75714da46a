# SD-card boot ROM over SPI, modelled in Dafny

This project models `bootrom/sdboot/sd.c`, the SD-card boot ROM of the
SiFive Freedom platform. The ROM runs in the following order:

1. It powers the card up over SPI.
2. It brings the card up with CMD0, CMD8, CMD55/ACMD41, CMD58 and CMD16.
3. It copies the GUID Partition Table header (block 1) into a 512-byte
   buffer.
4. It scans the partition-entry array, one block at a time, for the
   SiFive FSBL partition type.
5. It loads that partition block by block with CMD18 (READ_MULTIPLE_BLOCK).
   Each block is checked against its CRC16, and the transfer is closed with
   CMD12 (STOP_TRANSMISSION).

`main` returns 0 after a complete load and 1 after any failure.

The memory-mapped SPI controller is replaced by an explicit byte stream
(module `Spi`).
- `Link` holds:
  - the bytes the card clocks back;
  - every byte transmitted;
  - every write of the chip-select mode register;
  - the current mode.
- A read past the end of the card's stream returns 0xFF, the idle level of
  the data line.
- `Spi.Bus` is the controller as a class with those fields.
- Every routine of the driver has two forms:
  - a function `...Run` that says what it does to a `Link`;
  - a method on a `Bus`, proved to do exactly that.
- Lemmas restate the runs in terms of the card's byte stream: where the
  reply sits, what is transmitted, which blocks are read and when a step
  fails.

The modules, in dependency order:

- `Spi`: the link, `spi_xfer`, `sd_dummy` and the CSMODE writes.
- `Crc`: `crc7` as coded, the CRC7 that its comment names, and `crc16`.
- `SdCmd`: `sd_cmd`, `sd_cmd_end`, `sd_poweron` and the bring-up commands.
- `Copy`: `sd_copy` and `sd_copy_partition`.
  - The block loop is specified by `Blocks` on stream positions.
  - The methods write a caller's `array<bv8>`.
- `Gpt`: the GUID constants and their mixed-endian encoding.
  - It also holds the three header fields and the partition range.
  - The `gpt.h` helpers are passed in as the `Helpers` datatype.
- `Scan`: `find_sd_gpt_partition`, including its 32-bit and 64-bit
  arithmetic. `GPT_BLOCK_SIZE` is the `int` literal 512 (sd.c:152). In
  `num * size + 512 - 1` and `512 / size` (sd.c:291, 294) the usual
  arithmetic conversions make it `uint32_t`. `Scan.EntryBlocks` and
  `Scan.EntriesPerBlock` compute modulo 2^32 for that reason.
- `Boot`: `main`.

Waits that may never end are results of type `Wait<T> = Forever | Done(v)`.
This applies to the wait for the 0xFE data token. Each method requires that
its run is `Done`.

The code differs from a plain reading of its comments in three places. The
model follows the code each time.
- `crc7` does not compute the CRC with polynomial 0x89 that its comment
  names (see Findings).
- `sd_acmd41` ends without `sd_cmd_end`, so chip select is still held
  (`SdCmd.Acmd41LeavesHold`).
- `sd_copy_partition` sends one idle byte more, with a chip-select release,
  before CMD12.

## Model

| member | source | states |
|---|---|---|
| Spi.Bus.Xfer | bootrom/sdboot/sd.c:39-46 | one byte exchanged: returns the next byte of the card's stream (0xFF past its end) and appends the transmitted byte to the trace |
| Spi.Bus.Dummy | bootrom/sdboot/sd.c:48-50 | `sd_dummy` is an exchange of the idle byte 0xFF |
| Spi.Bus.SetCsMode | bootrom/sdboot/sd.c:80 | a CSMODE write is logged with the number of bytes exchanged before it and becomes the current mode |
| Crc.Crc7 | bootrom/sdboot/sd.c:165-171 | the coded `crc7` always returns a 7-bit value (below 0x80) |
| Crc.Crc7FromZero | bootrom/sdboot/sd.c:165-171 | starting from remainder 0, the coded `crc7` returns 0 for every input byte, because it begins with `prev & in` |
| Crc.Cmd18Crc | bootrom/sdboot/sd.c:188-194 | the CMD18 CRC byte that `sd_copy` and `sd_copy_partition` compute is 0x01 for every block address |
| Crc.Cmd18CrcDisagrees | bootrom/sdboot/sd.c:188-195 | CMD18 for block 0 is sent with CRC byte 0x01, while the true CRC7 of that frame gives 0xE1 |
| Crc.Cmd12CrcDisagrees | bootrom/sdboot/sd.c:223 | the CMD12 frame is sent with CRC byte 0x01, while its true CRC7 byte is 0x61 |
| Crc.Cmd0CrcIsCrc7 | bootrom/sdboot/sd.c:94 | the fixed CMD0 CRC byte 0x95 is the CRC7 (polynomial 0x89) of the frame 0x40 00 00 00 00 |
| Crc.Cmd8CrcIsCrc7 | bootrom/sdboot/sd.c:102 | the fixed CMD8 CRC byte 0x87 is the CRC7 of its frame with argument 0x1AA |
| Crc.Cmd55CrcIsCrc7 | bootrom/sdboot/sd.c:112 | the fixed CMD55 CRC byte 0x65 is the CRC7 of its frame |
| Crc.Acmd41CrcIsCrc7 | bootrom/sdboot/sd.c:121 | the fixed ACMD41 CRC byte 0x77 is the CRC7 of its frame with HCS set |
| Crc.Cmd58CrcIsCrc7 | bootrom/sdboot/sd.c:129 | the fixed CMD58 CRC byte 0xFD is the CRC7 of its frame |
| Crc.Cmd16CrcIsCrc7 | bootrom/sdboot/sd.c:141 | the fixed CMD16 CRC byte 0x15 is the CRC7 of its frame with argument 0x200 |
| Crc.Crc16 | bootrom/sdboot/sd.c:173-181 | the table-free `crc16` equals the bit-serial CRC-CCITT update (polynomial 0x1021): `crc ^ (data << 8)` shifted left 8 times, MSB first, with 0x1021 xored in when a 1 is shifted out |
| Crc.Crc16FoldSnoc | bootrom/sdboot/sd.c:205-209 | the running CRC over one byte more is `crc16` applied once more |
| Crc.Crc16FoldAppend | bootrom/sdboot/sd.c:205-209 | the CRC of a concatenation is the CRC of the second part, continued from the CRC of the first part |
| Crc.Crc16KeepsError | bootrom/sdboot/sd.c:173-181 | a non-zero remainder stays non-zero over a zero data byte |
| Crc.Crc16SeesByte | bootrom/sdboot/sd.c:173-181 | a non-zero data byte turns a zero remainder into a non-zero one |
| Crc.Crc16FoldZeros | bootrom/sdboot/sd.c:205-209 | zero bytes keep a zero running CRC zero and a non-zero one non-zero |
| Crc.Crc16SeesOneByteError | bootrom/sdboot/sd.c:205-212 | the CRC16 of an error pattern that is zero except in one byte is not zero: the single-byte (and single-bit) detection of CRC-CCITT, stated on the error pattern |
| SdCmd.CmdBytes | bootrom/sdboot/sd.c:57-63 | the frame has 7 bytes: a leading 0xFF, the command byte, the argument bytes, and the CRC byte last |
| SdCmd.CmdBytesArg | bootrom/sdboot/sd.c:59-62 | the four argument bytes, read big-endian, give back the 32-bit argument |
| SdCmd.PollLength | bootrom/sdboot/sd.c:65-72 | the response poll reads between 1 and 1000 bytes |
| SdCmd.PollLengthStops | bootrom/sdboot/sd.c:65-72 | every byte the poll reads before its last one has bit 7 set; the last one has bit 7 clear, or all 1000 reads were used |
| SdCmd.PollLengthUnique | bootrom/sdboot/sd.c:65-72 | those two properties determine the poll length, so the poll stops at the first response byte and nowhere else |
| SdCmd.PollFromShape | bootrom/sdboot/sd.c:65-72 | the poll transmits exactly its length in idle bytes and returns the last byte it read |
| SdCmd.ReplyAt | bootrom/sdboot/sd.c:52-76 | the byte `sd_cmd` returns sits 7 to 1006 positions after the start of the command |
| SdCmd.ReplyIsFirstResponse | bootrom/sdboot/sd.c:65-75 | `sd_cmd` returns the first byte after the frame with bit 7 clear, or the 1000th byte polled when none arrives |
| SdCmd.CmdFrame | bootrom/sdboot/sd.c:52-76 | `sd_cmd` sets chip select to HOLD, transmits the 7 frame bytes, then one idle byte per poll up to and including the reply, and returns the reply byte |
| SdCmd.CmdEndRun | bootrom/sdboot/sd.c:78-81 | `sd_cmd_end` transmits exactly one 0xFF and leaves chip select in AUTO |
| SdCmd.PowerOnTrace | bootrom/sdboot/sd.c:83-89 | power-on sets chip select OFF, transmits exactly ten 0xFF bytes, then sets AUTO |
| SdCmd.ReplyConsumes | bootrom/sdboot/sd.c:119-122 | a command uses up card bytes, and a reply other than 0xFF uses up at least one |
| SdCmd.Acmd41Run | bootrom/sdboot/sd.c:116-124 | the ACMD41 loop ends on every finite card stream, and the last reply is never 0x01 |
| SdCmd.Acmd41Round | bootrom/sdboot/sd.c:119-123 | a reply of 0x01 repeats CMD55 and ACMD41 from the stream that follows; any other reply ends the loop, which succeeds exactly when that reply is 0x00 |
| SdCmd.Acmd41LeavesHold | bootrom/sdboot/sd.c:116-124 | `sd_acmd41` returns with chip select still HOLD; it ends with the final ACMD41 exchange |
| SdCmd.Cmd0Fails | bootrom/sdboot/sd.c:91-97 | CMD0 fails exactly when R1 is not 0x01; it uses the bytes up to one past the reply and leaves chip select AUTO |
| SdCmd.Cmd8Fails | bootrom/sdboot/sd.c:99-109 | CMD8 always reads 4 trailing bytes; it fails exactly when R1 is not 0x01, the low nibble of the third trailing byte is not 1, or the fourth is not 0xAA |
| SdCmd.Cmd58Fails | bootrom/sdboot/sd.c:126-136 | CMD58 reads the 4 OCR bytes; it fails exactly when R1 is not 0 or bit 7 of the first OCR byte is clear |
| SdCmd.Cmd16Fails | bootrom/sdboot/sd.c:138-144 | CMD16 fails exactly when R1 is not 0 |
| SdCmd.Cmd | bootrom/sdboot/sd.c:52-76 | the method `sd_cmd` returns the reply and leaves the link exactly as `CmdRun` says |
| SdCmd.SendFrame | bootrom/sdboot/sd.c:57-63 | the seven transmissions are exactly the frame bytes |
| SdCmd.Poll | bootrom/sdboot/sd.c:65-75 | the `do ... while (--n > 0)` poll loop does what `PollRun` says |
| SdCmd.CmdEnd | bootrom/sdboot/sd.c:78-81 | the method `sd_cmd_end` does what `CmdEndRun` says |
| SdCmd.PowerOn | bootrom/sdboot/sd.c:83-89 | the ten-iteration loop does what `PowerOnRun` says |
| SdCmd.Cmd0 | bootrom/sdboot/sd.c:91-97 | the method `sd_cmd0` matches `Cmd0Run` |
| SdCmd.SkipRead4 | bootrom/sdboot/sd.c:103-106 | four idle exchanges, returning the first, third and fourth bytes read |
| SdCmd.Cmd8 | bootrom/sdboot/sd.c:99-109 | the method `sd_cmd8` matches `Cmd8Run` |
| SdCmd.Cmd8Reply | bootrom/sdboot/sd.c:103-108 | the trailing reads and checks of `sd_cmd8` match `Cmd8ReplyRun` |
| SdCmd.Cmd55 | bootrom/sdboot/sd.c:111-114 | the method `sd_cmd55` matches `Cmd55Run` and ignores the reply |
| SdCmd.Acmd41 | bootrom/sdboot/sd.c:116-124 | the retry loop matches `Acmd41Run`; it reports failure exactly when the final reply is not 0x00 |
| SdCmd.Cmd58 | bootrom/sdboot/sd.c:126-136 | the method `sd_cmd58` matches `Cmd58Run` |
| SdCmd.Cmd16 | bootrom/sdboot/sd.c:138-144 | the method `sd_cmd16` matches `Cmd16Run` |
| Copy.TokenEnd | bootrom/sdboot/sd.c:204 | when the token wait ends, it ends after a byte of the card's stream |
| Copy.TokenEndFirst | bootrom/sdboot/sd.c:204 | the wait ends just after the first 0xFE from its start; it never ends exactly when the rest of the stream holds no 0xFE |
| Copy.Blocks | bootrom/sdboot/sd.c:198-221 | a block loop that ends reads at least 1 and at most `Count(i)` blocks |
| Copy.BlocksCount | bootrom/sdboot/sd.c:198-221 | the loop returns 0 or 2; 0 exactly when the last block read is good, and then it has read `Count(i)` blocks (one even for `i <= 0`); the first block follows the first token |
| Copy.BlocksChain | bootrom/sdboot/sd.c:204-217 | each block but the last was good, and block k+1 follows the first token after block k's CRC bytes |
| Copy.BlocksFacts | bootrom/sdboot/sd.c:198-221 | `BlocksCount` and `BlocksChain` for the CRC16 comparison |
| Copy.Image | bootrom/sdboot/sd.c:207 | the destination image holds 512 bytes per block read |
| Copy.ImageAt | bootrom/sdboot/sd.c:205-209 | block k lands at `dst[512*k .. 512*k+512)`; byte j there is the j-th byte after that block's 0xFE token |
| Copy.SkipToToken | bootrom/sdboot/sd.c:204 | the token-skip loop stops just after the first 0xFE, having sent only idle bytes |
| Copy.ReceiveBlock | bootrom/sdboot/sd.c:205-209 | the 512-byte loop stores the next 512 bytes of the stream from `dst[off]` on, touches no other element, and returns their CRC16 |
| Copy.ReceiveByte | bootrom/sdboot/sd.c:206-208 | one byte read, stored at `*p` and folded into the running CRC16 |
| Copy.ReadCrc | bootrom/sdboot/sd.c:211-212 | the expected CRC16 is the two bytes after the data, high byte first |
| Copy.WordBytes | bootrom/sdboot/sd.c:211-212 | the high and low CRC bytes are read back unchanged from the 16-bit word they form |
| Copy.GoodSeesCrcByteError | bootrom/sdboot/sd.c:211-215 | changing either trailing CRC byte of a block that passes the check makes it fail the check |
| Copy.ReadBlock | bootrom/sdboot/sd.c:199-217 | one pass: token wait, 512 bytes stored, CRC read; the block is accepted exactly when `Good` holds |
| Copy.BlocksStep | bootrom/sdboot/sd.c:214-221 | after a block the loop stops with 2 (bad CRC), stops with 0 (count used up), or continues with `i - 1` after the CRC bytes |
| Copy.NextBlock | bootrom/sdboot/sd.c:199-220 | one pass of the block loop, stated against the loop's bookkeeping |
| Copy.ReadBlocks | bootrom/sdboot/sd.c:198-221 | the block loop returns `Blocks`' code, places the blocks read one after another from `dst[0]`, and leaves every later element unchanged |
| Copy.ReadMultiple | bootrom/sdboot/sd.c:183-226 | a copy returns `CopyRun`'s code and link; the destination holds the image of the blocks read and is unchanged after it |
| Copy.ReadMultipleSteps | bootrom/sdboot/sd.c:195-225 | the same, once the block count is a signed `long` |
| Copy.Rejected | bootrom/sdboot/sd.c:195-197 | a refused CMD18 is followed only by `sd_cmd_end` and return code 1 |
| Copy.Accepted | bootrom/sdboot/sd.c:198-225 | after an accepted CMD18 come the block loop and the stop |
| Copy.LoopAndStop | bootrom/sdboot/sd.c:198-225 | the block loop and the stop do what `AcceptedRun` says |
| Copy.StartRead | bootrom/sdboot/sd.c:188-195 | CMD18 is sent with the CRC byte the coded `crc7` yields, and the method returns the reply |
| Copy.Stop | bootrom/sdboot/sd.c:273-276 | the optional extra `sd_cmd_end`, then CMD12 with argument 0 and CRC byte 0x01, then `sd_cmd_end` |
| Copy.CopyBlocks | bootrom/sdboot/sd.c:183-226 | `sd_copy` into `dst` matches `CopyRun` |
| Copy.CopyPartitionBlocks | bootrom/sdboot/sd.c:228-279 | `sd_copy_partition` into the payload area matches `CopyRun` with the extra `sd_cmd_end` |
| Copy.CmdLinkSent | bootrom/sdboot/sd.c:52-76 | after `sd_cmd`, the trace is the frame plus idle bytes up to and including the reply |
| Copy.StopSent | bootrom/sdboot/sd.c:273-276 | the end of a copy transmits, apart from idle bytes, exactly one CMD12 frame with CRC byte 0x01, and it leaves chip select AUTO |
| Copy.CopyRefused | bootrom/sdboot/sd.c:195-197 | a non-zero CMD18 reply gives return code 1 and reads no block, so nothing is written; after the CMD18 frame only idle bytes are sent (no CMD12); chip select ends AUTO |
| Copy.CopyBound | bootrom/sdboot/sd.c:198-221 | whatever the card answers, a copy that ends has read at most `Count(size)` blocks |
| Copy.CopyIsAccepted | bootrom/sdboot/sd.c:195-198 | on a zero CMD18 reply, the copy continues as the block loop from the link the command left |
| Copy.CopyReads | bootrom/sdboot/sd.c:198-221 | accepted copy: 0 or 2; every block but the last good; 0 exactly when the last is good too, with max(size, 1) blocks read for a size below 2^63; a CRC mismatch reads no further block |
| Copy.AcceptedBlocks | bootrom/sdboot/sd.c:198-221 | the same facts for the link that CMD18 left |
| Copy.CopyStops | bootrom/sdboot/sd.c:223-224 | an accepted copy transmits the CMD18 frame, idle bytes, exactly one CMD12 frame and idle bytes, good CRCs or not; chip select ends AUTO |
| Copy.AcceptedSent | bootrom/sdboot/sd.c:222-225 | after CMD18 only idle bytes, one CMD12 frame and idle bytes are sent |
| Gpt.LeRoundTrip | bootrom/sdboot/sd.c:23 | reading back little-endian 16-bit and 32-bit encodings gives the value |
| Gpt.GuidBytes | bootrom/sdboot/sd.c:23-24 | a GUID encodes to 16 bytes, the last 8 as written |
| Gpt.GuidFieldsOfBytes | bootrom/sdboot/sd.c:23-24 | decoding an encoded GUID gives back its four groups |
| Gpt.GuidBytesOfFields | bootrom/sdboot/sd.c:23-24 | every 16 bytes are the encoding of the groups decoded from them, so the encoding is a bijection |
| Gpt.EfiGuidIsItsText | bootrom/sdboot/sd.c:24-27 | `gpt_guid_efi` is the mixed-endian encoding of c12a7328-f81f-11d2-ba4b-00a0c93ec93b |
| Gpt.FsblGuidIsItsText | bootrom/sdboot/sd.c:28-31 | `gpt_guid_sifive_fsbl` is the encoding of 5b193300-fc78-40cd-8002-e86c45580b47 |
| Gpt.BareMetalGuidIsItsText | bootrom/sdboot/sd.c:32-35 | `gpt_guid_sifive_bare_metal` is the encoding of 2e54b353-1271-4842-806f-e436d6af6985 |
| Scan.EntryBlocks | bootrom/sdboot/sd.c:291 | the block count, computed in `uint32_t`, is below 2^32 / 512 |
| Scan.EntryBlocksIsCeiling | bootrom/sdboot/sd.c:291 | without wrap-around, the block count is the smallest number of 512-byte blocks that holds `num * size` bytes |
| Scan.EntryBlocksWraps | bootrom/sdboot/sd.c:291 | 2^24 entries of 256 bytes wrap the product to 0, so no block is scanned |
| Scan.EntriesEnd | bootrom/sdboot/sd.c:289-292 | the exclusive end LBA is `lba + blocks`, or below `lba` when the 64-bit sum wraps |
| Scan.EntriesPerBlock | bootrom/sdboot/sd.c:294 | for a non-zero entry size, the number of whole entries that fit in 512 bytes |
| Scan.ScanStep | bootrom/sdboot/sd.c:297-304 | one `sd_copy(block_buf, i, 1)` into the buffer, then the finder's answer on the new contents and whether it is valid |
| Scan.ScanTurn | bootrom/sdboot/sd.c:296-305 | one turn of the scan: a valid range found in block i is returned; otherwise the scan continues from i + 1 |
| Scan.FindPartition | bootrom/sdboot/sd.c:281-307 | the method returns the range `ScanRun` gives and leaves the link and the buffer as it says |
| Scan.ScanLoop | bootrom/sdboot/sd.c:296-306 | the `for` loop matches `ScanFrom` |
| Scan.ScanShape | bootrom/sdboot/sd.c:296-306 | LBAs i, i+1, ... are copied in increasing order, one block each; nothing is found before the last; a valid range in the last block is returned; otherwise the invalid range after every block up to `end`; the buffer left is the last one shown to the finder |
| Scan.ScanCount | bootrom/sdboot/sd.c:289-306 | the scan starts at PartitionEntryLBA; without a match it returns the invalid range after exactly `EntryBlocks(num, size)` blocks, or none when the end LBA wraps |
| Scan.ScanAfterRefusedCopy | bootrom/sdboot/sd.c:297-305 | a failing `sd_copy` does not stop the scan: the finder is shown the unchanged buffer and the next LBA follows |
| Boot.BringUp | bootrom/sdboot/sd.c:314 | the short-circuit chain on the controller matches `BringUpRun` |
| Boot.BringUpStops | bootrom/sdboot/sd.c:314-317 | no command runs after the first failing step; bring-up succeeds exactly when all five steps do |
| Boot.PayloadSize | bootrom/sdboot/sd.c:353 | for a well-formed range, the block count `last + 1 - first` is the number of LBAs in the range |
| Boot.HeaderFilled | bootrom/sdboot/sd.c:319-328 | a header copy that returns 0 fills the buffer with exactly one block, whatever the buffer held before |
| Boot.PayloadOutcome | bootrom/sdboot/sd.c:350-363 | the payload copy of a valid range returns 0 only when it read the range's block count, each block with a matching CRC16 |
| Boot.FindOutcome | bootrom/sdboot/sd.c:331-363 | a range the scan returns that is not valid ends `main` with exactly status 1, no payload copy and the link the scan left; a valid one is the range the payload copy loads; the outcome is `Sound` |
| Boot.NotFoundIsFatal | bootrom/sdboot/sd.c:296-348 | when the not-found range is not valid: if the finder finds nothing in any block the scan copied, `main` returns 1 and loads nothing; a 0 needs a block in which the finder found the loaded range |
| Boot.HeaderOutcome | bootrom/sdboot/sd.c:326-363 | a header copy with a non-zero code ends `main` with exactly status 1, no payload copy and the link the copy left; a 0 needs a header copy that returned 0 after one block with a matching CRC16; the outcome is `Sound` |
| Boot.BootOutcome | bootrom/sdboot/sd.c:309-363 | `main` returns 0 or 1. A failed bring-up returns 1 with nothing after the failing command. A 0 means bring-up succeeded and a valid FSBL range was found; every block of its count was then loaded with a matching CRC16 |
| Boot.BootSd | bootrom/sdboot/sd.c:309-363 | `main` on the controller matches `BootRun`; the payload area holds the blocks read, one after another, and is unchanged after them |
| Boot.LoadHeader | bootrom/sdboot/sd.c:319-363 | `main` after bring-up matches `HeaderRun` |
| Boot.HeaderInto | bootrom/sdboot/sd.c:326-363 | the header copy into the buffer, and what follows, matches `HeaderRun` |
| Boot.Find | bootrom/sdboot/sd.c:331-363 | the scan with the header's three fields and the FSBL GUID, and what follows, matches `FindRun` |
| Boot.LoadPayload | bootrom/sdboot/sd.c:350-363 | `sd_copy_partition` of the range, with any non-zero code mapped to 1, matches `PayloadRun` |

## Left out

- Console output: `kputs`, `kprintf`, `dputs`, `kputc`, the dot progress every 2000 blocks and the spinner. None of it affects control flow.
- Register access: the MMIO of `REG32`, the UART enable and the spin on a negative RXFIFO read in `spi_xfer`. They are replaced by the byte stream; each exchange returns the next byte.
- The clock-divider writes (`F_CLK / 300000`, `F_CLK / 16666666`). They depend on the platform constant `TL_CLK` and do not change the bytes exchanged.
- `gpt.h` is not part of this model. `gpt_find_partition_by_guid`, `gpt_is_valid_partition_range`, `gpt_invalid_partition_range` and the `gpt_header` layout are the parameters in `Gpt.Helpers`. `GPT_HEADER_LBA` is taken as 1, per section 5.3.1 of the UEFI Specification.
- The fixed payload address `PAYLOAD_DEST+0x10000000` is a caller's array. The methods require it to hold the blocks the copy may write (`need`); the C code writes through a raw pointer.
- `fence.i` and the jump to the payload are left out, as are the unused `MAX_CORES` and `PAYLOAD_SIZE`.
- The uninitialised `gpt_buf` is a buffer of zeros. `Boot.HeaderFilled` shows that its prior contents do not matter once the header copy returns 0.
- An entry size of 0 divides by zero in C. The model gives the RISC-V `divu` result (all ones).
- The data-token wait never ends on a card that stops sending 0xFE. The functions return `Forever` there, and the methods are proved only for streams on which every wait ends (`...Run(...).Done?`).
- A read past the end of the card's stream returns 0xFF, so every loop except the token wait ends on a finite stream. This includes the ACMD41 retry loop, which on real hardware ends only when the card leaves the idle state.
- Copy.StopSent: states the idle bytes around the CMD12 frame only as some count, not the exact one. `StopRun` and `AcceptedRun` give the exact counts.
- Copy.CopyStops: states the idle-byte counts only as some count, for the same reason.
- Crc.Crc16: the single-bit detection of a corrupted data byte is proved only on the error pattern (`Crc.Crc16SeesOneByteError`), and for the two CRC bytes at the level of a block (`Copy.GoodSeesCrcByteError`). Carrying it to two data streams needs the linearity `Crc16(a ^ b, x ^ y) == Crc16(a, x) ^ Crc16(b, y)`. The solver does not prove any goal that relates two calls of `crc16` on unknown arguments within the resource limit.
- Copy.Blocks: a size of exactly 2^63 makes `i` equal to `LONG_MIN`, and the `--i` of sd.c:221 and sd.c:272 is then signed overflow, which C leaves undefined. The model stops after one block, as it does for every negative `i`. A build that wraps would go on for about 2^63 blocks.

## Findings

| source | as written | input that shows it | evidently intended | confidence | as-written member | corrected member |
|---|---|---|---|---|---|---|
| bootrom/sdboot/sd.c:165-171 | `crc7` starts from `prev & in`, so from 0 it stays 0; every CMD18 frame gets CRC byte 0x01 | CMD18 for LBA 0: frame 0x52 00 00 00 00 is sent with 0x01, where the CRC7 is 0xE1 | the CRC7 with polynomial 0x89 that the comment names; it gives the fixed bytes 0x95, 0x87, 0x65, 0x77, 0xFD and 0x15 of the other commands | not executed | Crc.Cmd18CrcDisagrees | Crc.FrameCrc |

The corrected CRC7 is `Crc.FrameCrc`, stated bit by bit in `Crc.Crc7Bits`.
The `Crc.Cmd*CrcIsCrc7` lemmas prove that it reproduces every fixed CRC byte
of the bring-up commands. The copy model still transmits the as-written 0x01.
That is the byte on the wire, and in SPI mode the card checks CRCs only after
CMD59 turns checking on, which the ROM never sends.
