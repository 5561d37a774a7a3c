/** The driver and the chip together: every interleaving of task calls, completions, SPI
    failures, INT edges, timer ticks and chip events. */
module World {
  import opened Bytes
  import opened Options
  import opened Spi
  import opened RingAlloc
  import opened DriverSpec
  import opened Chip
  import opened Records

  /** History of one socket: payloads accepted with SOCK_OK, received bytes handed out or
      dropped from the receive queue, datagrams handed out, and whether data arrived
      between a READ_SOC that found RECV with nothing to read and its acknowledgement. */
  datatype Hist = Hist(accepted: seq<Msg>, taken: seq<byte>, datagrams: seq<Datagram>, lateData: bool)

  /** completed lists the finished commands that had been pushed to the back, in order; pollFailed records an
      asynchronous SPI error during a command-register poll. */
  datatype World = World(d: Drv, chips: seq<ChipSock>, hist: seq<Hist>, completed: seq<Cmd>, pollFailed: bool)

  predicate Shape(w: World) {
    && Wf(w.d) && |w.chips| == SOCKETS && |w.hist| == SOCKETS
    && forall s :: 0 <= s < SOCKETS ==> ValidChip(w.chips[s])
  }

  /** The transfer in flight is the poll of a busy command register. */
  predicate Polling(d: Drv) {
    d.dma == TxRx && IsCrWrite(d.running)
  }

  /** Commands that were pushed to the back of the queue. READ_SOC and the Sn_IR write are only
      ever pushed to its front. */
  predicate FromBack(c: Cmd) {
    || c.WriteReg? || c.WriteBuf? || c.ReadBuf? || c.CheckRcv? || c.CheckTxFsr?
    || ((c.ReadReg? || c.ReadSir?) && c.back)
  }

  datatype Event =
    | TaskSend(sn: nat, buf: seq<byte>, ok: bool)
    | TaskSendTo(sn: nat, buf: seq<byte>, addr: seq<byte>, port: u16, ok: bool)
    | TaskRecv(sn: nat, len: u16, ok: bool)
    | TaskRecvFrom(sn: nat, len: u16, ok: bool)
    | TaskSetReg(sn: nat, off: u16, data: seq<byte>, ok: bool)
    | TaskGetReg(sn: nat, off: u16, count: nat, ok: bool)
    | Complete(ok: bool)
    | AsyncFailure
    | Timer(ok: bool)
    | ChipStep(sn: nat, e: ChipEvent, seen: bool, ok: bool)

  /** Registers that a task may write while sockets are open: common ones and the socket
      options MSSR, TOS, TTL, FRAG and KPALVTR. */
  predicate OptionReg(sn: nat, off: u16) {
    sn >= SOCKETS || off in {0x12, 0x15, 0x16, 0x2D, 0x2F}
  }

  /** The socket commands of connect, disconnect and close. */
  predicate SocketCommand(sn: nat, off: u16, data: seq<byte>) {
    sn < SOCKETS && off == Sn_CR && (data == [CR_CONNECT] || data == [CR_DISCON] || data == [CR_CLOSE])
  }

  /** The Socket Interrupt Register. */
  function Sir(chips: seq<ChipSock>): set<nat>
    requires |chips| == SOCKETS
  {
    set s: nat | s < SOCKETS && chips[s].ir != {}
  }

  /** Tasks call recvfrom on UDP sockets and recv on the others; failure callbacks come only
      during a transfer; a TCP timeout ends the run; UDP data arrives in whole records with
      non-empty data. */
  predicate Enabled(w: World, ev: Event)
    requires Shape(w)
  {
    match ev
    case TaskSend(sn, buf, ok) => |buf| < 65536
    case TaskSendTo(sn, buf, addr, port, ok) => |buf| < 65536 && |addr| == 4
    case TaskRecv(sn, len, ok) => sn < SOCKETS ==> w.chips[sn].mode == Tcp
    case TaskRecvFrom(sn, len, ok) => sn < SOCKETS ==> w.chips[sn].mode == Udp
    case TaskSetReg(sn, off, data, ok) => OptionReg(sn, off) || SocketCommand(sn, off, data)
    case TaskGetReg(sn, off, count, ok) => true
    case Complete(ok) => w.d.dma != NoDma
    case AsyncFailure => w.d.dma != NoDma
    case Timer(ok) => true
    case ChipStep(sn, e, seen, ok) =>
      && sn < SOCKETS && CanHappen(w.chips[sn], e)
      && (e == SendDone(false) ==> w.chips[sn].mode == Udp)
      && (e.Arrive? && w.chips[sn].mode == Udp ==> Whole(e.data))
  }

  /** The reply to the read transfer in flight. */
  function ReplyOf(w: World): Reply
    requires Shape(w)
  {
    var c := w.d.running;
    if Polling(w.d) then NoReply
    else if c.ReadSir? then SirBits(Sir(w.chips))
    else if c.Idle? || c.sn >= SOCKETS then NoReply
    else ReadReply(w.chips[c.sn], c, w.d.socks[c.sn].rxBuf)
  }

  /** A finished write transfer of a socket changes that socket of the chip. */
  function ChipsAfter(w: World): seq<ChipSock>
    requires Shape(w)
  {
    var c := w.d.running;
    if w.d.dma != Tx || c.Idle? || c.ReadSir? || c.sn >= SOCKETS then w.chips
    else w.chips[c.sn := AfterWrite(w.chips[c.sn], c, w.d.socks[c.sn].txBuf)]
  }

  function Accepted(w: World, sn: nat, m: Msg, r: (Drv, Ret)): World
    requires Shape(w)
  {
    var w1 := w.(d := r.0);
    if r.1 == SOCK_OK && sn < SOCKETS then
      w1.(hist := w.hist[sn := w.hist[sn].(accepted := w.hist[sn].accepted + [m])])
    else w1
  }

  /** Concatenated payloads of the segments in a receive queue. */
  function Payloads(buf: seq<byte>, segs: seq<Seg>): seq<byte>
    decreases |segs|
  {
    if segs == [] then [] else Payload(buf, segs[0]) + Payloads(buf, segs[1..])
  }

  /** A segment's bytes after its three SPI bytes. */
  function Payload(buf: seq<byte>, s: Seg): seq<byte> {
    if s.start + 3 <= s.end then Take(buf, s.start + 3, s.end - s.start - 3) else []
  }

  /** What a task call removed from the front of a receive queue. */
  function Removed(before: Sock, after: Sock): seq<byte> {
    var a, b := Payloads(before.rxBuf, before.rxq), Payloads(before.rxBuf, after.rxq);
    if |b| <= |a| then a[..|a| - |b|] else []
  }

  /** Between a READ_SOC that found RECV set and nothing to read, and its acknowledgement. */
  predicate StaleRecv(d: Drv, sn: nat)
    requires Wf(d) && sn < SOCKETS
  {
    var next := if (d.running.Idle? || Polling(d)) && d.queue != [] then d.queue[0] else d.running;
    && next.ClearIr? && next.sn == sn && RECV in next.flags
    && !d.socks[sn].receiving && d.socks[sn].reg.rxRsr == 0
  }

  function Step(w: World, ev: Event): World
    requires Shape(w) && Enabled(w, ev)
  {
    match ev
    case TaskSend(sn, buf, ok) => Accepted(w, sn, Msg(buf, [], 0), Send(w.d, sn, buf, ok))
    case TaskSendTo(sn, buf, addr, port, ok) =>
      Accepted(w, sn, Msg(buf, addr, port), SendTo(w.d, sn, buf, addr, port, ok))
    case TaskRecv(sn, len, ok) =>
      var r := Recv(w.d, sn, len, ok);
      if sn >= SOCKETS then w.(d := r.0)
      else w.(d := r.0, hist := w.hist[sn := w.hist[sn].(taken := w.hist[sn].taken + r.1)])
    case TaskRecvFrom(sn, len, ok) =>
      var r := RecvFrom(w.d, sn, len, ok);
      if sn >= SOCKETS || r.1 == None then w.(d := r.0)
      else
        var h := w.hist[sn];
        var gone := Removed(w.d.socks[sn], TakeDatagram(w.d.socks[sn], len).0);
        w.(d := r.0, hist := w.hist[sn := h.(taken := h.taken + gone, datagrams := h.datagrams + [r.1.value])])
    case TaskSetReg(sn, off, data, ok) => w.(d := EnqueueSetReg(w.d, sn, off, data, ok).0)
    case TaskGetReg(sn, off, count, ok) => w.(d := EnqueueGetReg(w.d, sn, off, count, ok).0)
    case Complete(ok) =>
      w.(d := TransferComplete(w.d, ReplyOf(w), ok),
         chips := ChipsAfter(w),
         completed := if FromBack(w.d.running) && !Polling(w.d) then w.completed + [w.d.running] else w.completed)
    case AsyncFailure => w.(d := HandleSpiFailure(w.d), pollFailed := w.pollFailed || Polling(w.d))
    case Timer(ok) => w.(d := TimerCallback(w.d, ok))
    case ChipStep(sn, e, seen, ok) =>
      var chips := w.chips[sn := AfterEvent(w.chips[sn], e)];
      var edge := Sir(w.chips) == {} && Sir(chips) != {};
      var h := w.hist[sn];
      w.(chips := chips,
         hist := w.hist[sn := h.(lateData := h.lateData || (e.Arrive? && StaleRecv(w.d, sn)))],
         d := if edge && seen then InterruptCallback(w.d, ok) else w.d)
  }
}
