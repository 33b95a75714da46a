/**
 * SD commands in SPI mode (bootrom/sdboot/sd.c:52-144): the command
 * frame and its response poll, the end-of-command byte, power-on, and the
 * bring-up commands CMD0, CMD8, CMD55, ACMD41, CMD58 and CMD16.
 *
 * Every routine has a function `...Run` on `Spi.Link` that says what it
 * does to the link, and a method on a `Spi.Bus` proved to do exactly that.
 * Lemmas restate the runs in terms of the card's byte stream: where the
 * response byte sits, which bytes are transmitted, and when a command
 * fails.
 */
module SdCmd {
  import opened Spi
  import Crc

  /** Idle reads `sd_cmd` makes at most while waiting for a response (sd.c:65). */
  const PollLimit: nat := 1000

  /**
   * The seven bytes `sd_cmd` transmits: one idle byte, the command byte,
   * the argument most significant byte first, and the CRC byte.
   */
  function CmdBytes(cmd: bv8, arg: bv32, crc: bv8): (f: seq<bv8>)
    ensures |f| == 7 && f[0] == 0xFF && f[1] == cmd && f[6] == crc
  {
    [0xFF] + [cmd] + [Crc.Lo8(arg >> 24)] + [Crc.Lo8(arg >> 16)] + [Crc.Lo8(arg >> 8)] + [Crc.Lo8(arg)] + [crc]
  }

  /** The four argument bytes of a frame put back together give the argument. */
  lemma CmdBytesArg(cmd: bv8, arg: bv32, crc: bv8)
    ensures var f := CmdBytes(cmd, arg, crc);
      ((f[2] as bv32) << 24) | ((f[3] as bv32) << 16) | ((f[4] as bv32) << 8) | (f[5] as bv32) == arg
  {
  }

  /** An R1 response starts with a 0 bit; the idle line reads as 1s (sd.c:68). */
  predicate IsResponse(b: bv8)
  {
    b & 0x80 == 0
  }

  /**
   * How many bytes the response poll of `sd_cmd` (sd.c:65-72) reads from
   * position `p` of stream `s` when its last allowed read is at `end - 1`:
   * it stops on the first response byte or when the count runs out. (The
   * bound is a position rather than a count of reads left so that no call
   * has a literal decreasing argument.)
   */
  function PollLength(s: seq<bv8>, p: nat, end: nat): (k: nat)
    requires p < end
    ensures 1 <= k <= end - p
    decreases end - p
  {
    if IsResponse(At(s, p)) || p + 1 == end then 1 else 1 + PollLength(s, p + 1, end)
  }

  /**
   * Every byte the poll reads before its last is not a response, and the
   * last one is a response unless every allowed read was used.
   */
  lemma {:induction false} PollLengthStops(s: seq<bv8>, p: nat, end: nat)
    requires p < end
    ensures var k := PollLength(s, p, end);
      && (forall j :: p <= j < p + k - 1 ==> !IsResponse(At(s, j)))
      && (IsResponse(At(s, p + k - 1)) || p + k == end)
    decreases end - p
  {
    if !(IsResponse(At(s, p)) || p + 1 == end) {
      PollLengthStops(s, p + 1, end);
    }
  }

  /** Those two properties determine the poll's length. */
  lemma {:induction false} PollLengthUnique(s: seq<bv8>, p: nat, end: nat, m: nat)
    requires 1 <= m <= end - p
    requires forall j :: p <= j < p + m - 1 ==> !IsResponse(At(s, j))
    requires IsResponse(At(s, p + m - 1)) || p + m == end
    ensures m == PollLength(s, p, end)
    decreases end - p
  {
    if m > 1 {
      assert !IsResponse(At(s, p));
      PollLengthUnique(s, p + 1, end, m - 1);
    }
  }

  /** Position of the last byte the response poll reads when it starts at position `p`. */
  function PollEnd(s: seq<bv8>, p: nat): (i: nat)
    ensures p <= i < p + PollLimit
  {
    p + PollLength(s, p, p + PollLimit) - 1
  }

  /**
   * The response poll of `sd_cmd` (sd.c:65-72), its last allowed read at
   * position `end - 1`: read an idle byte; stop if it is a response or no
   * reads are left.
   */
  function PollFrom(l: Link, end: nat): (bv8, Link)
    requires Pos(l) < end
    decreases end - Pos(l)
  {
    var d := DummyRun(l);
    if IsResponse(d.0) || Pos(l) + 1 == end then d else PollFrom(d.1, end)
  }

  /** The whole response poll, 1000 reads allowed. */
  function PollRun(l: Link): (bv8, Link)
  {
    PollFrom(l, Pos(l) + PollLimit)
  }

  /** The poll exchanges `PollLength` idle bytes and returns the last byte read. */
  lemma {:induction false} PollFromShape(l: Link, end: nat)
    requires Pos(l) < end
    ensures var k := PollLength(l.card, Pos(l), end);
      PollFrom(l, end) == (At(l.card, Pos(l) + k - 1), SendRun(l, Idle(k)))
    decreases end - Pos(l)
  {
    var d := DummyRun(l);
    SendNothing(l);
    DummyAfterIdle(l, 0);
    if !(IsResponse(d.0) || Pos(l) + 1 == end) {
      var k := PollLength(l.card, Pos(l) + 1, end);
      assert PollLength(l.card, Pos(l), end) == 1 + k;
      assert Pos(d.1) == Pos(l) + 1;
      PollFromShape(d.1, end);
      SendSend(l, Idle(1), Idle(k));
      IdleAppend(1, k);
    }
  }

  /**
   * `sd_cmd(cmd, arg, crc)` (sd.c:52-76): hold chip select, transmit the
   * frame, then poll.
   */
  function CmdRun(l: Link, cmd: bv8, arg: bv32, crc: bv8): (bv8, Link)
  {
    PollRun(SendRun(CsRun(l, CsHold), CmdBytes(cmd, arg, crc)))
  }

  /** Position in the card's stream of the byte `sd_cmd` returns when started at `l`. */
  function ReplyAt(l: Link): (i: nat)
    ensures Pos(l) + 7 <= i < Pos(l) + 7 + PollLimit
  {
    PollEnd(l.card, Pos(l) + 7)
  }

  /**
   * The bytes the poll skips before the reply are not responses, and the
   * reply is one unless all 1000 polls were used.
   */
  lemma ReplyIsFirstResponse(l: Link)
    ensures var i := ReplyAt(l);
      && (forall j :: Pos(l) + 7 <= j < i ==> !IsResponse(At(l.card, j)))
      && (IsResponse(At(l.card, i)) || i == Pos(l) + 6 + PollLimit)
  {
    PollLengthStops(l.card, Pos(l) + 7, Pos(l) + 7 + PollLimit);
  }

  /**
   * `sd_cmd` returns the byte at `ReplyAt(l)`; on the link it records a
   * switch to chip-select HOLD, then transmits the seven frame bytes and
   * one idle byte per poll, up to and including the reply.
   */
  lemma CmdFrame(l: Link, cmd: bv8, arg: bv32, crc: bv8)
    ensures CmdRun(l, cmd, arg, crc) == (At(l.card, ReplyAt(l)), CmdLink(l, cmd, arg, crc))
  {
    var l0 := CsRun(l, CsHold);
    var f := CmdBytes(cmd, arg, crc);
    var l1 := SendRun(l0, f);
    assert l1.card == l.card && Pos(l1) == Pos(l) + 7;
    var k := PollLength(l.card, Pos(l) + 7, Pos(l) + 7 + PollLimit);
    assert ReplyAt(l) - Pos(l) - 6 == k;
    PollFromShape(l1, Pos(l1) + PollLimit);
    SendSend(l0, f, Idle(k));
  }

  /**
   * The link after `sd_cmd` started at `l`: chip-select HOLD, the seven
   * frame bytes, and one idle byte per poll up to and including the reply.
   */
  function CmdLink(l: Link, cmd: bv8, arg: bv32, crc: bv8): Link
  {
    SendRun(CsRun(l, CsHold), CmdBytes(cmd, arg, crc) + Idle(ReplyAt(l) - Pos(l) - 6))
  }

  /** `sd_cmd_end` (sd.c:78-81) */
  function CmdEndRun(l: Link): (l': Link)
    ensures l'.sent == l.sent + [0xFF] && l'.card == l.card
    ensures l'.csLog == l.csLog + [CsWrite(Pos(l) + 1, CsAuto)] && l'.cs == CsAuto
  {
    CsRun(DummyRun(l).1, CsAuto)
  }

  /** `sd_poweron` without its clock-divider write (sd.c:83-89) */
  function PowerOnRun(l: Link): Link
  {
    CsRun(SendRun(CsRun(l, CsOff), Idle(10)), CsAuto)
  }

  /** Power-on drops chip select, clocks ten idle bytes and returns CS to AUTO. */
  lemma PowerOnTrace(l: Link)
    ensures var l' := PowerOnRun(l);
      && l'.sent == l.sent + Idle(10) && l'.card == l.card
      && l'.csLog == l.csLog + [CsWrite(Pos(l), CsOff), CsWrite(Pos(l) + 10, CsAuto)]
      && l'.cs == CsAuto
  {
  }

  /** `sd_cmd0` (sd.c:91-97): GO_IDLE_STATE; fails unless the card is idle (R1 0x01). */
  function Cmd0Run(l: Link): (bool, Link)
  {
    var (r, l1) := CmdRun(l, 0x40, 0, 0x95);
    (r != 0x01, CmdEndRun(l1))
  }

  /** The voltage-accepted field of an R7 response says 2.7-3.6 V (sd.c:105). */
  predicate VoltageAccepted(b: bv8)
  {
    b & 0xF == 0x1
  }

  /**
   * `sd_cmd8` (sd.c:99-109): SEND_IF_COND with 2.7-3.6 V and check pattern
   * 0xAA; the four bytes after R1 are always read.
   */
  function Cmd8Run(l: Link): (bool, Link)
  {
    Cmd8ReplyRun(CmdRun(l, 0x48, 0x1AA, 0x87))
  }

  /** What `sd_cmd8` does once `sd_cmd` has returned `r` on link `l1`. */
  function Cmd8ReplyRun(rl: (bv8, Link)): (bool, Link)
  {
    var r := rl.0;
    var l1 := rl.1;
    var v := At(l1.card, Pos(l1) + 2);
    var p := At(l1.card, Pos(l1) + 3);
    (r != 0x01 || !VoltageAccepted(v) || p != 0xAA, CmdEndRun(SendRun(l1, Idle(4))))
  }

  /** `sd_cmd55` (sd.c:111-114): APP_CMD; its response is not looked at. */
  function Cmd55Run(l: Link): Link
  {
    CmdEndRun(CmdRun(l, 0x77, 0, 0x65).1)
  }

  /** How much of the card's stream is still to come. */
  function Remaining(l: Link): nat
  {
    if Pos(l) < |l.card| then |l.card| - Pos(l) else 0
  }

  /** A reply other than 0xFF came from the card's stream, so it used some of it. */
  lemma ReplyConsumes(l: Link, cmd: bv8, arg: bv32, crc: bv8)
    ensures var (r, l') := CmdRun(l, cmd, arg, crc);
      Remaining(l') <= Remaining(l) && (r != 0xFF ==> Remaining(l') < Remaining(l))
  {
    CmdFrame(l, cmd, arg, crc);
  }

  /**
   * `sd_acmd41` (sd.c:116-124): CMD55 then ACMD41 with HCS set, repeated
   * while the card answers 0x01 (still idle). Returns the last response.
   * Each repetition uses up card bytes, since a reply of 0x01 is not the
   * idle 0xFF of an exhausted stream; so the loop ends on every finite
   * stream.
   */
  function Acmd41Run(l: Link): (res: (bv8, Link))
    ensures res.0 != 0x01
    decreases Remaining(l)
  {
    var l1 := Cmd55Run(l);
    var (r, l2) := CmdRun(l1, 0x69, 0x4000_0000, 0x77);
    if r == 0x01 then
      ReplyConsumes(l, 0x77, 0, 0x65);
      ReplyConsumes(l1, 0x69, 0x4000_0000, 0x77);
      Acmd41Run(l2)
    else (r, l2)
  }

  /**
   * `sd_cmd58` (sd.c:126-136): READ_OCR; fails unless R1 is 0 and the
   * power-up status bit of the first OCR byte is set; all four OCR bytes
   * are read.
   */
  function Cmd58Run(l: Link): (bool, Link)
  {
    var (r, l1) := CmdRun(l, 0x7A, 0, 0xFD);
    var o := At(l1.card, Pos(l1));
    (r != 0x00 || o & 0x80 != 0x80, CmdEndRun(SendRun(l1, Idle(4))))
  }

  /** `sd_cmd16` (sd.c:138-144): SET_BLOCKLEN 512; fails unless R1 is 0. */
  function Cmd16Run(l: Link): (bool, Link)
  {
    var (r, l1) := CmdRun(l, 0x50, 0x200, 0x15);
    (r != 0x00, CmdEndRun(l1))
  }

  // When each bring-up command fails, in terms of the card's stream, and
  // how much of the stream it uses whether it fails or not.

  lemma Cmd0Fails(l: Link)
    ensures var i := ReplyAt(l);
      && (Cmd0Run(l).0 <==> At(l.card, i) != 0x01)
      && Pos(Cmd0Run(l).1) == i + 2
      && Cmd0Run(l).1.cs == CsAuto
  {
    CmdFrame(l, 0x40, 0, 0x95);
  }

  lemma Cmd8Fails(l: Link)
    ensures var i := ReplyAt(l);
      && (Cmd8Run(l).0 <==>
          At(l.card, i) != 0x01 || At(l.card, i + 3) & 0xF != 0x1 || At(l.card, i + 4) != 0xAA)
      && Pos(Cmd8Run(l).1) == i + 6
      && Cmd8Run(l).1.cs == CsAuto
  {
    CmdFrame(l, 0x48, 0x1AA, 0x87);
    var l1 := CmdRun(l, 0x48, 0x1AA, 0x87).1;
    assert Pos(l1) + 2 == ReplyAt(l) + 3 && Pos(l1) + 3 == ReplyAt(l) + 4;
  }

  lemma Cmd58Fails(l: Link)
    ensures var i := ReplyAt(l);
      && (Cmd58Run(l).0 <==> At(l.card, i) != 0x00 || At(l.card, i + 1) & 0x80 != 0x80)
      && Pos(Cmd58Run(l).1) == i + 6
      && Cmd58Run(l).1.cs == CsAuto
  {
    CmdFrame(l, 0x7A, 0, 0xFD);
    var l1 := CmdRun(l, 0x7A, 0, 0xFD).1;
    assert Pos(l1) == ReplyAt(l) + 1;
  }

  lemma Cmd16Fails(l: Link)
    ensures var i := ReplyAt(l);
      && (Cmd16Run(l).0 <==> At(l.card, i) != 0x00)
      && Pos(Cmd16Run(l).1) == i + 2
      && Cmd16Run(l).1.cs == CsAuto
  {
    CmdFrame(l, 0x50, 0x200, 0x15);
  }

  /**
   * One round of `sd_acmd41`: when the ACMD41 reply is not 0x01 the loop
   * stops there, and it succeeds exactly when that reply is 0x00; when the
   * reply is 0x01 the whole exchange repeats from the following stream.
   */
  lemma Acmd41Round(l: Link)
    ensures var (r, l2) := CmdRun(Cmd55Run(l), 0x69, 0x4000_0000, 0x77);
      && (r != 0x01 ==> Acmd41Run(l) == (r, l2) && (Acmd41Run(l).0 == 0x00 <==> r == 0x00))
      && (r == 0x01 ==> Acmd41Run(l) == Acmd41Run(l2))
  {
  }

  /**
   * `sd_acmd41` calls no `sd_cmd_end` (sd.c:116-124): chip select is still
   * held when it returns, and the last thing transmitted is the final
   * ACMD41 frame and its poll.
   */
  lemma {:induction false} Acmd41LeavesHold(l: Link)
    ensures Acmd41Run(l).1.cs == CsHold
    ensures exists l1 :: Acmd41Run(l).1 == CmdLink(l1, 0x69, 0x4000_0000, 0x77)
    decreases Remaining(l)
  {
    var l1 := Cmd55Run(l);
    CmdFrame(l1, 0x69, 0x4000_0000, 0x77);
    var (r, l2) := CmdRun(l1, 0x69, 0x4000_0000, 0x77);
    if r == 0x01 {
      ReplyConsumes(l, 0x77, 0, 0x65);
      ReplyConsumes(l1, 0x69, 0x4000_0000, 0x77);
      Acmd41LeavesHold(l2);
    }
  }

  // The methods: the same routines on the SPI controller itself.

  /** `sd_cmd` */
  method Cmd(bus: Bus, cmd: bv8, arg: bv32, crc: bv8) returns (r: bv8)
    modifies bus
    ensures (r, bus.State()) == CmdRun(old(bus.State()), cmd, arg, crc)
  {
    bus.SetCsMode(CsHold);
    SendFrame(bus, cmd, arg, crc);
    r := Poll(bus);
  }

  /** The seven transmissions of `sd_cmd` (sd.c:57-63). */
  method SendFrame(bus: Bus, cmd: bv8, arg: bv32, crc: bv8)
    modifies bus
    ensures bus.State() == SendRun(old(bus.State()), CmdBytes(cmd, arg, crc))
  {
    ghost var l := bus.State();
    SendNothing(l);
    XferAfter(l, [], 0xFF);
    var _ := bus.Dummy();
    ghost var sent: seq<bv8> := [0xFF];
    assert [] + sent == sent;
    XferAfter(l, sent, cmd);
    var _ := bus.Xfer(cmd);
    sent := sent + [cmd];
    XferAfter(l, sent, Crc.Lo8(arg >> 24));
    var _ := bus.Xfer(Crc.Lo8(arg >> 24));
    sent := sent + [Crc.Lo8(arg >> 24)];
    XferAfter(l, sent, Crc.Lo8(arg >> 16));
    var _ := bus.Xfer(Crc.Lo8(arg >> 16));
    sent := sent + [Crc.Lo8(arg >> 16)];
    XferAfter(l, sent, Crc.Lo8(arg >> 8));
    var _ := bus.Xfer(Crc.Lo8(arg >> 8));
    sent := sent + [Crc.Lo8(arg >> 8)];
    XferAfter(l, sent, Crc.Lo8(arg));
    var _ := bus.Xfer(Crc.Lo8(arg));
    sent := sent + [Crc.Lo8(arg)];
    XferAfter(l, sent, crc);
    var _ := bus.Xfer(crc);
    sent := sent + [crc];
    assert sent == CmdBytes(cmd, arg, crc);
  }

  /** The response poll of `sd_cmd` (sd.c:65-72). */
  method Poll(bus: Bus) returns (r: bv8)
    modifies bus
    ensures (r, bus.State()) == PollRun(old(bus.State()))
  {
    var n: nat := PollLimit;
    while true
      invariant 1 <= n <= PollLimit
      invariant Pos(bus.State()) + n == Pos(old(bus.State())) + PollLimit
      invariant PollRun(old(bus.State())) == PollFrom(bus.State(), Pos(bus.State()) + n)
      decreases n
    {
      r := bus.Dummy();
      if IsResponse(r) {
        return;
      }
      n := n - 1;
      if n == 0 {
        return;
      }
    }
  }

  /** `sd_cmd_end` */
  method CmdEnd(bus: Bus)
    modifies bus
    ensures bus.State() == CmdEndRun(old(bus.State()))
  {
    var _ := bus.Dummy();
    bus.SetCsMode(CsAuto);
  }

  /** `sd_poweron` */
  method PowerOn(bus: Bus)
    modifies bus
    ensures bus.State() == PowerOnRun(old(bus.State()))
  {
    bus.SetCsMode(CsOff);
    ghost var off := bus.State();
    var i := 10;
    SendNothing(off);
    while i > 0
      invariant 0 <= i <= 10
      invariant bus.State() == SendRun(off, Idle(10 - i))
    {
      DummyAfterIdle(off, 10 - i);
      var _ := bus.Dummy();
      i := i - 1;
    }
    bus.SetCsMode(CsAuto);
  }

  /** `sd_cmd0` */
  method Cmd0(bus: Bus) returns (failed: bool)
    modifies bus
    ensures (failed, bus.State()) == Cmd0Run(old(bus.State()))
  {
    var r := Cmd(bus, 0x40, 0, 0x95);
    failed := r != 0x01;
    CmdEnd(bus);
  }

  /** Four `sd_dummy` calls; the first, third and fourth bytes read are returned. */
  method SkipRead4(bus: Bus) returns (first: bv8, third: bv8, fourth: bv8)
    modifies bus
    ensures bus.State() == SendRun(old(bus.State()), Idle(4))
    ensures first == At(bus.card, |old(bus.sent)|) && third == At(bus.card, |old(bus.sent)| + 2)
    ensures fourth == At(bus.card, |old(bus.sent)| + 3)
  {
    ghost var l := bus.State();
    SendNothing(l);
    DummyAfterIdle(l, 0);
    first := bus.Dummy();
    DummyAfterIdle(l, 1);
    var _ := bus.Dummy();
    DummyAfterIdle(l, 2);
    third := bus.Dummy();
    DummyAfterIdle(l, 3);
    fourth := bus.Dummy();
  }

  /** `sd_cmd8` */
  method Cmd8(bus: Bus) returns (failed: bool)
    modifies bus
    ensures (failed, bus.State()) == Cmd8Run(old(bus.State()))
  {
    var r := Cmd(bus, 0x48, 0x1AA, 0x87);
    failed := Cmd8Reply(bus, r);
  }

  /** The part of `sd_cmd8` after `sd_cmd` has returned `r`. */
  method Cmd8Reply(bus: Bus, r: bv8) returns (failed: bool)
    modifies bus
    ensures (failed, bus.State()) == Cmd8ReplyRun((r, old(bus.State())))
  {
    var _, v, p := SkipRead4(bus);
    failed := r != 0x01 || !VoltageAccepted(v) || p != 0xAA;
    CmdEnd(bus);
  }

  /** `sd_cmd55` */
  method Cmd55(bus: Bus)
    modifies bus
    ensures bus.State() == Cmd55Run(old(bus.State()))
  {
    var _ := Cmd(bus, 0x77, 0, 0x65);
    CmdEnd(bus);
  }

  /** `sd_acmd41`: returns whether it failed, with the last response. */
  method Acmd41(bus: Bus) returns (failed: bool, r: bv8)
    modifies bus
    ensures (r, bus.State()) == Acmd41Run(old(bus.State()))
    ensures failed <==> r != 0x00
  {
    while true
      invariant Acmd41Run(old(bus.State())) == Acmd41Run(bus.State())
      decreases Remaining(bus.State())
    {
      ReplyConsumes(bus.State(), 0x77, 0, 0x65);
      Cmd55(bus);
      ReplyConsumes(bus.State(), 0x69, 0x4000_0000, 0x77);
      r := Cmd(bus, 0x69, 0x4000_0000, 0x77);
      if r != 0x01 {
        failed := r != 0x00;
        return;
      }
    }
  }

  /** `sd_cmd58` */
  method Cmd58(bus: Bus) returns (failed: bool)
    modifies bus
    ensures (failed, bus.State()) == Cmd58Run(old(bus.State()))
  {
    var r := Cmd(bus, 0x7A, 0, 0xFD);
    failed := r != 0x00;
    var o, _, _ := SkipRead4(bus);
    failed := failed || o & 0x80 != 0x80;
    CmdEnd(bus);
  }

  /** `sd_cmd16` */
  method Cmd16(bus: Bus) returns (failed: bool)
    modifies bus
    ensures (failed, bus.State()) == Cmd16Run(old(bus.State()))
  {
    var r := Cmd(bus, 0x50, 0x200, 0x15);
    failed := r != 0x00;
    CmdEnd(bus);
  }
}
