/** One socket of the W5500 as the driver meets it over SPI.

    Pointer registers are counters (see Bytes); the registers the driver reads show them
    modulo 65536. sent, arrived and the counters' unbounded parts are history. */
module Chip {
  import opened Bytes
  import opened Spi
  import opened DriverSpec

  /** A payload as it goes on the wire; TCP has no per-message destination. */
  datatype Msg = Msg(data: seq<byte>, addr: seq<byte>, port: u16)

  /** txFree <= txRd <= txWr: freed, handed to the wire, written. rxRel <= rxRd <= rxWr:
      released by RECV, read pointer register, received. */
  datatype ChipSock = ChipSock(
    mode: Mode, sr: Status, ir: set<Flag>, cr: byte,
    txMem: seq<byte>, txFree: nat, txRd: nat, txWr: nat, transmitting: bool, dip: seq<byte>, dport: u16,
    rxMem: seq<byte>, rxRel: nat, rxRd: nat, rxWr: nat,
    sent: seq<Msg>, arrived: seq<byte>)

  predicate ValidChip(ch: ChipSock) {
    && MemSize(|ch.txMem|) && MemSize(|ch.rxMem|)
    && ch.txFree <= ch.txRd <= ch.txWr <= ch.txFree + |ch.txMem|
    && ch.rxRel <= ch.rxRd <= ch.rxWr <= ch.rxRel + |ch.rxMem|
    && |ch.arrived| == ch.rxWr
  }

  /** Sn_TX_FSR and Sn_RX_RSR. */
  function TxFsr(ch: ChipSock): u16 { ToU16(|ch.txMem| - (ch.txWr - ch.txFree)) }

  function RxRsr(ch: ChipSock): u16 { ToU16(ch.rxWr - ch.rxRel) }

  function ShownRegs(ch: ChipSock): Regs {
    Regs(ch.mode, ch.cr, ch.ir, ch.sr, TxFsr(ch), ToU16(ch.txWr), RxRsr(ch), ToU16(ch.rxRd))
  }

  /** Block selects as the chip numbers them: the socket, and which of its three blocks. */
  predicate SendMemoryOf(block: nat, sn: nat) { block / 4 == sn && block % 4 == 2 }

  predicate ReceiveMemoryOf(block: nat, sn: nat) { block / 4 == sn && block % 4 == 3 }

  // ---- SPI transfers -----------------------------------------------------------------

  /** A completed write transfer, by the chip's own register numbers: 0x01 is the command
      register, 0x0C the destination address, 0x10 its port, 0x24 the write pointer, 0x28 the
      read pointer. Buffer writes take address and block from the header bytes found in the send
      buffer. */
  function AfterWrite(ch: ChipSock, c: Cmd, txBuf: seq<byte>): ChipSock
    requires |ch.txMem| > 0
  {
    match c
    case WriteReg(sn, off, data) =>
      if off == 0x01 && |data| == 1 then ch.(cr := data[0])
      else if off == 0x0C then ch.(dip := data)
      else if off == 0x10 && |data| == 2 then ch.(dport := GetU16(data))
      else if off == 0x24 && |data| == 2 then ch.(txWr := Advance(ch.txWr, GetU16(data)))
      else if off == 0x28 && |data| == 2 then ch.(rxRd := Advance(ch.rxRd, GetU16(data)))
      else ch
    case ClearIr(sn, flags) => ch.(ir := ch.ir - flags)
    case WriteBuf(sn, start, len) =>
      if len < 3 || start < 0 || start + len > |txBuf| then ch
      else
        var h := txBuf[start..start + 3];
        if HeaderWrite(h) && SendMemoryOf(HeaderBlock(h), sn) then
          ch.(txMem := RingWrite(ch.txMem, HeaderOffset(h), txBuf[start + 3..start + len]))
        else ch
    case _ => ch
  }

  /** What a completed read transfer of socket sn brings back; 0x03 is the status register. */
  function ReadReply(ch: ChipSock, c: Cmd, rxBuf: seq<byte>): Reply
    requires |ch.rxMem| > 0
  {
    match c
    case ReadReg(sn, off, count, back) =>
      if off == 0x01 && count == 1 then CrByte(ch.cr)
      else if off == 0x03 && count == 1 then SrByte(ch.sr)
      else NoReply
    case ReadBuf(sn, start, len) =>
      if len < 3 || start < 0 || start + 3 > |rxBuf| then NoReply
      else
        // The three header bytes come back as whatever the chip drives meanwhile.
        var h := rxBuf[start..start + 3];
        if !HeaderWrite(h) && ReceiveMemoryOf(HeaderBlock(h), sn) then
          Bytes([0, 0, 0] + RingRead(ch.rxMem, HeaderOffset(h), len - 3))
        else Bytes(seq(len, i => 0 as byte))
    case ReadSoc(sn) => SocRegs(ShownRegs(ch))
    case CheckRcv(sn) => RcvRegs(RxRsr(ch), ToU16(ch.rxRd))
    case CheckTxFsr(sn) => TxRegs(TxFsr(ch), ToU16(ch.txWr))
    case _ => NoReply
  }

  // ---- The chip's own steps ---------------------------------------------------------

  /** The socket commands as the chip numbers them. */
  predicate IsSend(cr: byte) { cr == 0x20 }

  predicate IsRecv(cr: byte) { cr == 0x40 }

  predicate Closes(cr: byte) { cr == 0x08 || cr == 0x10 }

  /** Accept: the pending socket command takes effect and Sn_CR returns to 0. SendDone: a
      SEND ends in SENDOK or TIMEOUT. Freed: acknowledged send memory becomes free.
      Arrive: data from the network. PeerFin: the TCP peer closes its side. */
  datatype ChipEvent = Accept | SendDone(ok: bool) | Freed(n: nat) | Arrive(data: seq<byte>) | PeerFin

  predicate CanHappen(ch: ChipSock, e: ChipEvent) {
    match e
    case Accept => ch.cr != 0
    case SendDone(ok) => ch.transmitting
    case Freed(n) => ch.txFree + n <= ch.txRd
    case Arrive(data) => data != [] && ch.rxWr + |data| <= ch.rxRel + |ch.rxMem|
    case PeerFin => ch.mode == Tcp && ch.sr == Established
  }

  function AfterEvent(ch: ChipSock, e: ChipEvent): ChipSock
    requires ValidChip(ch) && CanHappen(ch, e)
  {
    match e
    case Accept =>
      if IsSend(ch.cr) then
        var data := RingRead(ch.txMem, ch.txRd, ch.txWr - ch.txRd);
        var m := if ch.mode == Udp then Msg(data, ch.dip, ch.dport) else Msg(data, [], 0);
        ch.(cr := 0, sent := ch.sent + [m], txRd := ch.txWr, transmitting := true)
      else if IsRecv(ch.cr) then ch.(cr := 0, rxRel := ch.rxRd)
      else if Closes(ch.cr) then ch.(cr := 0, sr := Closed)
      else ch.(cr := 0)
    case SendDone(ok) => ch.(transmitting := false, ir := ch.ir + {if ok then SENDOK else TIMEOUT})
    case Freed(n) => ch.(txFree := ch.txFree + n)
    case Arrive(data) =>
      ch.(rxMem := RingWrite(ch.rxMem, ch.rxWr, data), rxWr := ch.rxWr + |data|,
          arrived := ch.arrived + data, ir := ch.ir + {RECV})
    case PeerFin => ch.(sr := CloseWait, ir := ch.ir + {DISCON})
  }
}
