/** The driver's state and what each of its routines does to it, as functions.

    The last parameter `ok` of a routine that may start a DMA transfer says whether the
    HAL accepts the transfer; a routine starts at most one. */
module DriverSpec {
  import opened Bytes
  import opened Options
  import opened RingAlloc
  import opened Spi

  const COMMAND_QUEUE_SIZE: nat := 1000
  const CR_CONNECT: byte := 0x04
  const CR_DISCON: byte := 0x08
  const CR_CLOSE: byte := 0x10
  const CR_SEND: byte := 0x20
  const CR_RECV: byte := 0x40

  datatype Flag = CON | DISCON | RECV | TIMEOUT | SENDOK
  datatype Mode = Tcp | Udp
  /** Closed is every status in which the driver neither sends nor receives. */
  datatype Status = Closed | Established | CloseWait | UdpOpen

  /** The mirrored socket registers that the routines below look at. Sn_IR is the set of
      its raised flags. */
  datatype Regs = Regs(mode: Mode, cr: byte, ir: set<Flag>, sr: Status,
                       txFsr: u16, txWr: u16, rxRsr: u16, rxRd: u16)

  /** A command_t: its type, socket, register or buffer place, and inline bytes. Register
      headers are inline; buffer transfers carry theirs in the buffer. ClearIr is the
      WRITE_REG command for Sn_IR. READ_REG and READ_SIR are pushed to either end of the
      command queue; back is a history variable that says which. */
  datatype Cmd =
    | Idle
    | WriteReg(sn: nat, off: u16, data: seq<byte>)
    | ClearIr(sn: nat, flags: set<Flag>)
    | WriteBuf(sn: nat, start: int, len: nat)
    | ReadReg(sn: nat, off: u16, count: nat, back: bool)
    | ReadBuf(sn: nat, start: int, len: nat)
    | ReadSir(back: bool)
    | ReadSoc(sn: nat)
    | CheckRcv(sn: nat)
    | CheckTxFsr(sn: nat)

  /** The transfer in flight: none, transmit only, or transmit and receive. */
  datatype Dma = NoDma | Tx | TxRx

  /** clash is a history variable: some placement succeeded in a buffer whose ring was
      exactly full. */
  datatype Sock = Sock(reg: Regs, txKb: nat, txBuf: seq<byte>, txq: seq<Seg>,
                       rxBuf: seq<byte>, rxq: seq<Seg>, sending: bool, receiving: bool, clash: bool)

  /** fails is enqueueFailsInISR. */
  datatype Drv = Drv(queue: seq<Cmd>, running: Cmd, dma: Dma, socks: seq<Sock>, fails: nat)

  /** What a finished transmit-receive transfer brought back. */
  datatype Reply =
    | NoReply
    | CrByte(cr: byte)
    | SrByte(sr: Status)
    | Bytes(bytes: seq<byte>)
    | SirBits(sockets: set<nat>)
    | SocRegs(regs: Regs)
    | RcvRegs(rsr: u16, rd: u16)
    | TxRegs(fsr: u16, wr: u16)

  datatype Ret = SOCK_OK | INVALID_PARAM | QUEUE_FULL | INVALID_STATE | TXBUF_FULL | PACK_TOO_LRG

  predicate Wf(d: Drv) {
    |d.socks| == SOCKETS
  }

  // ---- Buffers -------------------------------------------------------------------

  /** memcpy to an index that may lie outside the buffer; bytes outside are not part of the
      state. */
  function Put(buf: seq<byte>, at: int, data: seq<byte>): (r: seq<byte>)
    ensures |r| == |buf|
  {
    if 0 <= at && at + |data| <= |buf| then Splice(buf, at, data)
    else seq(|buf|, i requires 0 <= i < |buf| => if at <= i < at + |data| then data[i - at] else buf[i])
  }

  function Take(buf: seq<byte>, at: nat, len: nat): seq<byte> {
    if at + len <= |buf| then buf[at..at + len] else []
  }

  lemma TakePut(buf: seq<byte>, at: nat, data: seq<byte>)
    requires at + |data| <= |buf|
    ensures Take(Put(buf, at, data), at, |data|) == data
  {
  }

  lemma TakeElsewhere(buf: seq<byte>, at: nat, data: seq<byte>, lo: nat, len: nat)
    requires lo + len <= at || at + |data| <= lo
    ensures Take(Put(buf, at, data), lo, len) == Take(buf, lo, len)
  {
  }

  // ---- Scheduler -----------------------------------------------------------------

  function InlineHeader(c: Cmd): (h: seq<byte>)
    requires c.WriteReg? || c.ClearIr?
    ensures |h| == 3
  {
    Header(if c.WriteReg? then c.off else Sn_IR, RegBlock(c.sn), true)
  }

  /** The driver's recognition of a command-register write, by header bytes. */
  predicate IsCrWrite(c: Cmd)
    ensures IsCrWrite(c) <==> c.WriteReg? && c.sn < SOCKETS && c.off == Sn_CR
  {
    && (c.WriteReg? || c.ClearIr?)
    && (CrTestExact(c.sn, if c.WriteReg? then c.off else Sn_IR);
        IsCrHeader(InlineHeader(c), c.sn))
  }

  function TransferOf(c: Cmd): Dma {
    match c
    case WriteReg(_, _, _) => Tx
    case ClearIr(_, _) => Tx
    case WriteBuf(_, _, _) => Tx
    case Idle => NoDma
    case _ => TxRx
  }

  function ReadCr(sn: nat): Cmd { ReadReg(sn, Sn_CR, 1, false) }

  /** handleSPIFailure: the running command goes back to the front. */
  function HandleSpiFailure(d: Drv): (r: Drv)
    requires Wf(d)
    ensures Wf(r)
  {
    (if |d.queue| >= COMMAND_QUEUE_SIZE then d.(fails := d.fails + 1)
     else d.(queue := [d.running] + d.queue)).(running := Idle, dma := NoDma)
  }

  /** dmaTXCompleteCallback: pop the next command and start its transfer. A command-register
      write goes out only when the mirrored CR is 0, followed by a read of CR; otherwise CR
      is polled and the write stays queued. */
  function Start(d: Drv, ok: bool): (r: Drv)
    requires Wf(d)
    ensures Wf(r) && r.socks == d.socks
  {
    if d.queue == [] then
      d.(running := Idle, dma := NoDma)
    else
      var c := d.queue[0];
      var d1 := d.(running := c, queue := d.queue[1..]);
      if !ok then HandleSpiFailure(d1)
      else if IsCrWrite(c) && d.socks[c.sn].reg.cr != 0 then
        QueueFront(d1.(dma := TxRx), c)
      else if IsCrWrite(c) then
        QueueFront(d1.(dma := Tx), ReadCr(c.sn))
      else
        d1.(dma := TransferOf(c))
  }

  /** queuePushFront from a place where a command is running, so that nothing starts. */
  function QueueFront(d: Drv, c: Cmd): (r: Drv)
    requires Wf(d)
    ensures Wf(r) && r.socks == d.socks
  {
    if |d.queue| >= COMMAND_QUEUE_SIZE then d.(fails := d.fails + 1) else d.(queue := [c] + d.queue)
  }

  /** kickStartCommands, called after a push to an empty queue. */
  function KickStart(d: Drv, ok: bool): (r: Drv)
    requires Wf(d)
    ensures Wf(r) && r.socks == d.socks
  {
    if d.running.Idle? then Start(d, ok) else d
  }

  function PushBack(d: Drv, c: Cmd, ok: bool): (r: Drv)
    requires Wf(d)
    ensures Wf(r) && r.socks == d.socks
  {
    if |d.queue| >= COMMAND_QUEUE_SIZE then d.(fails := d.fails + 1)
    else
      var d1 := d.(queue := d.queue + [c]);
      if d.queue == [] then KickStart(d1, ok) else d1
  }

  function PushFront(d: Drv, c: Cmd, ok: bool): (r: Drv)
    requires Wf(d)
    ensures Wf(r) && r.socks == d.socks
  {
    if |d.queue| >= COMMAND_QUEUE_SIZE then d.(fails := d.fails + 1)
    else
      var d1 := d.(queue := [c] + d.queue);
      if d.queue == [] then KickStart(d1, ok) else d1
  }

  function PushAll(d: Drv, cs: seq<Cmd>, ok: bool): (r: Drv)
    requires Wf(d)
    ensures Wf(r) && r.socks == d.socks
    decreases |cs|
  {
    if cs == [] then d else PushAll(PushBack(d, cs[0], ok), cs[1..], ok)
  }

  // ---- Sending and receiving -------------------------------------------------------

  predicate Open(sr: Status) {
    sr == Established || sr == CloseWait || sr == UdpOpen
  }

  /** The commands that put one segment on the wire. */
  function SendBatch(sn: nat, mode: Mode, seg: Seg, txWr: u16): seq<Cmd>
    requires seg.start <= seg.end
  {
    var len := seg.end - seg.start;
    (if mode == Udp then
       [WriteReg(sn, Sn_DIPR, seg.addr), WriteReg(sn, Sn_DPORT, SetU16(seg.port))]
     else []) +
    [WriteBuf(sn, seg.start, len),
     WriteReg(sn, Sn_TX_WR, SetU16(txWr + len - 3)),
     WriteReg(sn, Sn_CR, [CR_SEND])]
  }

  /** sendPendingData up to its pushes: the socket afterwards and the commands to push. */
  function SendPlan(sk: Sock, sn: nat): (Sock, seq<Cmd>)
    requires sn < SOCKETS
  {
    if sk.sending || !Open(sk.reg.sr) || sk.txq == [] then (sk, [])
    else
      var seg := sk.txq[0];
      if seg.end < seg.start + 3 || seg.end - seg.start - 3 > sk.reg.txFsr then (sk, [])
      else
        (sk.(txBuf := Put(sk.txBuf, seg.start, Header(sk.reg.txWr, TxBlock(sn), true)), sending := true),
         SendBatch(sn, sk.reg.mode, seg, sk.reg.txWr))
  }

  function SendPending(d: Drv, sn: nat, ok: bool): (r: Drv)
    requires Wf(d) && sn < SOCKETS
    ensures Wf(r)
  {
    var (sk, cs) := SendPlan(d.socks[sn], sn);
    PushAll(d.(socks := d.socks[sn := sk]), cs, ok)
  }

  /** The commands that fetch rsr bytes into the buffer at index at. RECV is written twice:
      the second write cannot start before the first has been read back as accepted. */
  function RecvBatch(sn: nat, at: int, rsr: u16, rxRd: u16): seq<Cmd> {
    [ReadBuf(sn, at, ToU16(rsr + 3)),
     WriteReg(sn, Sn_RX_RD, SetU16(rxRd + rsr)),
     WriteReg(sn, Sn_CR, [CR_RECV]),
     WriteReg(sn, Sn_CR, [CR_RECV]),
     CheckRcv(sn)]
  }

  /** receivePendingData up to its pushes. */
  function ReceivePlan(sk: Sock, sn: nat): (Sock, seq<Cmd>)
    requires sn < SOCKETS
  {
    if sk.receiving || !Open(sk.reg.sr) || sk.reg.rxRsr == 0 then (sk, [])
    else
      var rsr := sk.reg.rxRsr;
      var at := BufferIndex(sk.rxq, |sk.rxBuf|, ToU16(rsr + 3));
      if at == -1 then (sk, [])
      else
        (sk.(rxBuf := Put(sk.rxBuf, at, Header(sk.reg.rxRd, RxBlock(sn), false)),
             receiving := true,
             clash := sk.clash || Full(sk.rxq)),
         RecvBatch(sn, at, rsr, sk.reg.rxRd))
  }

  function ReceivePending(d: Drv, sn: nat, ok: bool): (r: Drv)
    requires Wf(d) && sn < SOCKETS
    ensures Wf(r)
  {
    var (sk, cs) := ReceivePlan(d.socks[sn], sn);
    PushAll(d.(socks := d.socks[sn := sk]), cs, ok)
  }

  // ---- Completion of a transfer ------------------------------------------------------

  function SetSock(d: Drv, sn: nat, sk: Sock): (r: Drv)
    requires Wf(d) && sn < SOCKETS
    ensures Wf(r)
  {
    d.(socks := d.socks[sn := sk])
  }

  /** READ_SIR: a READ_SOC for every flagged socket, pushed in rising order to the front. */
  function PushSocs(d: Drv, flagged: set<nat>, i: nat): (r: Drv)
    requires Wf(d) && i <= SOCKETS
    ensures Wf(r) && r.socks == d.socks
    decreases SOCKETS - i
  {
    if i == SOCKETS then d
    else PushSocs(if i in flagged then QueueFront(d, ReadSoc(i)) else d, flagged, i + 1)
  }

  function PopSent(sk: Sock): Sock {
    sk.(txq := if sk.txq == [] then [] else sk.txq[1..], sending := false)
  }

  /** READ_SOC on the freshly read registers. */
  function HandleSoc(d: Drv, sn: nat): (r: Drv)
    requires Wf(d) && sn < SOCKETS
    ensures Wf(r)
  {
    var ir := d.socks[sn].reg.ir;
    var d1 := if RECV in ir then ReceivePending(d, sn, true) else d;
    var d2 :=
      if TIMEOUT !in ir then d1
      else if d1.socks[sn].reg.mode == Tcp then
        SetSock(d1, sn, d1.socks[sn].(sending := false, txq := []))
      else SendPending(SetSock(d1, sn, PopSent(d1.socks[sn])), sn, true);
    var d3 :=
      if SENDOK !in ir then d2
      else SendPending(SetSock(d2, sn, PopSent(d2.socks[sn])), sn, true);
    QueueFront(d3, ClearIr(sn, ir))
  }

  /** The segment of a finished READ_BUF: its ends are 16 bits wide. */
  function Fetched(start: int, len: nat): Seg { Seg(ToU16(start), ToU16(start + len), [], 0) }

  lemma FetchedIs(start: nat, len: nat)
    requires start + len < 65536
    ensures Fetched(start, len) == Seg(start, start + len, [], 0)
  {
  }

  /** dmaRXCompleteCallback together with the bytes that the DMA has put in place. */
  function DmaRxComplete(d: Drv, r: Reply): (d': Drv)
    requires Wf(d)
    ensures Wf(d')
  {
    match d.running
    case ReadReg(sn, off, count, back) =>
      if sn < SOCKETS && r.CrByte? then SetSock(d, sn, d.socks[sn].(reg := d.socks[sn].reg.(cr := r.cr)))
      else if sn < SOCKETS && r.SrByte? then SetSock(d, sn, d.socks[sn].(reg := d.socks[sn].reg.(sr := r.sr)))
      else d
    case ReadBuf(sn, start, len) =>
      if sn >= SOCKETS || !r.Bytes? then d
      else
        var sk := d.socks[sn].(rxBuf := Put(d.socks[sn].rxBuf, start, r.bytes));
        if |sk.rxq| >= SOCKET_QUEUE_SIZE then SetSock(d, sn, sk).(fails := d.fails + 1)
        else SetSock(d, sn, sk.(rxq := sk.rxq + [Fetched(start, len)]))
    case ReadSir(_) => if r.SirBits? then PushSocs(d, r.sockets, 0) else d
    case ReadSoc(sn) =>
      if sn >= SOCKETS || !r.SocRegs? then d
      else HandleSoc(SetSock(d, sn, d.socks[sn].(reg := r.regs)), sn)
    case CheckRcv(sn) =>
      if sn >= SOCKETS || !r.RcvRegs? then d
      else
        var reg := d.socks[sn].reg.(rxRsr := r.rsr, rxRd := r.rd);
        ReceivePending(SetSock(d, sn, d.socks[sn].(reg := reg, receiving := false)), sn, true)
    case CheckTxFsr(sn) =>
      if sn >= SOCKETS || !r.TxRegs? then d
      else
        var reg := d.socks[sn].reg.(txFsr := r.fsr, txWr := r.wr);
        SendPending(SetSock(d, sn, d.socks[sn].(reg := reg)), sn, true)
    case _ => d
  }

  /** wiznetSPITxRxCompleteCallback and wiznetSPITxCompleteCallback. */
  function TransferComplete(d: Drv, r: Reply, ok: bool): (d': Drv)
    requires Wf(d)
    ensures Wf(d')
  {
    Start(if d.dma == TxRx then DmaRxComplete(d, r) else d, ok)
  }

  // ---- Timer and INT pin ---------------------------------------------------------------

  function PushTxChecks(d: Drv, sn: nat, ok: bool): (r: Drv)
    requires Wf(d) && sn <= SOCKETS
    ensures Wf(r) && r.socks == d.socks
    decreases SOCKETS - sn
  {
    if sn == SOCKETS then d
    else PushTxChecks(if d.socks[sn].reg.sr == Established then PushBack(d, CheckTxFsr(sn), ok) else d, sn + 1, ok)
  }

  function TimerCallback(d: Drv, ok: bool): (r: Drv)
    requires Wf(d)
    ensures Wf(r) && r.socks == d.socks
  {
    var d1 := if d.running.Idle? && d.queue != [] then Start(d, ok) else d;
    PushBack(PushTxChecks(d1, 0, ok), ReadSir(true), ok)
  }

  function InterruptCallback(d: Drv, ok: bool): (r: Drv)
    requires Wf(d)
    ensures Wf(r) && r.socks == d.socks
  {
    PushFront(d, ReadSir(false), ok)
  }

  // ---- Task calls ------------------------------------------------------------------------

  /** Segment production shared by send and sendto. */
  function Enqueue(sk: Sock, buf: seq<byte>, addr: seq<byte>, port: u16): (Sock, Ret) {
    var at := BufferIndex(sk.txq, |sk.txBuf|, ToU16(|buf| + 3));
    if at == -1 then (sk, TXBUF_FULL)
    else if |sk.txq| >= SOCKET_QUEUE_SIZE then (sk, QUEUE_FULL)
    else
      (sk.(txq := sk.txq + [Seg(ToU16(at), ToU16(at + |buf| + 3), addr, port)],
           txBuf := Put(sk.txBuf, at + 3, buf),
           clash := sk.clash || Full(sk.txq)),
       SOCK_OK)
  }

  predicate TooLarge(sk: Sock, buf: seq<byte>) {
    sk.txKb * 1024 < |buf| || |sk.txBuf| < |buf| + 3
  }

  function Send(d: Drv, sn: nat, buf: seq<byte>, ok: bool): (r: (Drv, Ret))
    requires Wf(d) && |buf| < 65536
    ensures Wf(r.0)
  {
    if sn >= SOCKETS || buf == [] then (d, INVALID_PARAM)
    else if d.socks[sn].reg.sr != Established && d.socks[sn].reg.sr != CloseWait then (d, INVALID_STATE)
    else if TooLarge(d.socks[sn], buf) then (d, PACK_TOO_LRG)
    else
      var (sk, ret) := Enqueue(d.socks[sn], buf, [], 0);
      (SendPending(SetSock(d, sn, sk), sn, ok), ret)
  }

  function SendTo(d: Drv, sn: nat, buf: seq<byte>, addr: seq<byte>, port: u16, ok: bool): (r: (Drv, Ret))
    requires Wf(d) && |buf| < 65536
    ensures Wf(r.0)
  {
    if sn >= SOCKETS || buf == [] || port == 0 then (d, INVALID_PARAM)
    else if d.socks[sn].reg.sr != UdpOpen then (d, INVALID_STATE)
    else if TooLarge(d.socks[sn], buf) then (d, PACK_TOO_LRG)
    else
      var (sk, ret) := Enqueue(d.socks[sn], buf, addr, port);
      (SendPending(SetSock(d, sn, sk), sn, ok), ret)
  }

  function DataLen(s: Seg): u16 { ToU16(s.end - s.start - 3) }

  /** The copy loop of recv with `room` bytes left in the caller's buffer. */
  function RecvCopy(sk: Sock, room: nat): (r: (Sock, seq<byte>))
    decreases |sk.rxq|
  {
    if room == 0 || sk.rxq == [] || DataLen(sk.rxq[0]) > room then (sk, [])
    else
      var data := Take(sk.rxBuf, sk.rxq[0].start + 3, DataLen(sk.rxq[0]));
      var (sk', rest) := RecvCopy(sk.(rxq := sk.rxq[1..]), room - DataLen(sk.rxq[0]));
      (sk', data + rest)
  }

  function Recv(d: Drv, sn: nat, len: u16, ok: bool): (r: (Drv, seq<byte>))
    requires Wf(d)
    ensures Wf(r.0)
  {
    if sn >= SOCKETS || len == 0 then (d, [])
    else
      var (sk, data) := RecvCopy(d.socks[sn], len);
      (ReceivePending(SetSock(d, sn, sk), sn, ok), data)
  }

  /** A received UDP datagram with its source. */
  datatype Datagram = Datagram(addr: seq<byte>, port: u16, data: seq<byte>)

  /** recvfrom on the front segment: a record is 4 bytes address, 2 port, 2 length, data. */
  function TakeDatagram(sk: Sock, len: u16): (Sock, Option<Datagram>) {
    if sk.rxq == [] then (sk, None)
    else
      var seg := sk.rxq[0];
      var at := seg.start + 3;
      if ToU16(seg.end - seg.start) < 11 || at + 8 > |sk.rxBuf| then (sk, None)
      else
        var packetLen := GetU16(sk.rxBuf[at + 6..at + 8]);
        if packetLen > len then (sk, None)
        else
          var dg := Datagram(sk.rxBuf[at..at + 4], GetU16(sk.rxBuf[at + 4..at + 6]), Take(sk.rxBuf, at + 8, packetLen));
          var newStart := ToU16(seg.start + ToU16(3 + 8 + packetLen));
          if newStart + 8 < seg.end then
            (sk.(rxq := [seg.(start := ToU16(newStart - 3))] + sk.rxq[1..]), Some(dg))
          else (sk.(rxq := sk.rxq[1..]), Some(dg))
  }

  function RecvFrom(d: Drv, sn: nat, len: u16, ok: bool): (r: (Drv, Option<Datagram>))
    requires Wf(d)
    ensures Wf(r.0)
  {
    if sn >= SOCKETS || len == 0 then (d, None)
    else
      var (sk, dg) := TakeDatagram(d.socks[sn], len);
      (ReceivePending(SetSock(d, sn, sk), sn, ok), dg)
  }

  function EnqueueSetReg(d: Drv, sn: nat, off: u16, data: seq<byte>, ok: bool): (r: (Drv, bool))
    requires Wf(d)
    ensures Wf(r.0)
  {
    if |data| > 7 || |d.queue| >= COMMAND_QUEUE_SIZE then (d, false)
    else (PushBack(d, WriteReg(sn, off, data), ok), true)
  }

  function EnqueueGetReg(d: Drv, sn: nat, off: u16, count: nat, ok: bool): (r: (Drv, bool))
    requires Wf(d)
    ensures Wf(r.0)
  {
    if count > 7 || |d.queue| >= COMMAND_QUEUE_SIZE then (d, false)
    else (PushBack(d, ReadReg(sn, off, count, true), ok), true)
  }
}
