/** One socket: its driver record, its chip registers, its part of the pending commands, and
    the invariant that ties them together. */
module LocalInv {
  import opened Bytes
  import opened Spi
  import opened RingAlloc
  import opened DriverSpec
  import opened Chip
  import opened World
  import opened Lanes
  import opened Records

  /** rx, tx and cr are the socket's lanes of the pending commands; crFlying: a write to its
      command register is in flight; ack: the flags that a pending Sn_IR write will clear. */
  datatype Local = Local(rx: seq<Cmd>, tx: seq<Cmd>, cr: seq<Cmd>, crFlying: bool, ack: set<Flag>,
                         sk: Sock, ch: ChipSock, h: Hist)

  function CrWrite(s: SockNo, v: byte): Cmd { WriteReg(s, Sn_CR, [v]) }

  /** Raised flags that no READ_SOC has acted on yet. */
  function Fresh(l: Local): set<Flag> { l.ch.ir - l.ack }

  // ---- Fixed facts ---------------------------------------------------------------------

  /** A segment holds its three SPI bytes and at least one payload byte. */
  ghost predicate Filled(segs: seq<Seg>) {
    forall i :: 0 <= i < |segs| ==> segs[i].start + 3 < segs[i].end
  }

  predicate StatusOf(mode: Mode, sr: Status) {
    (mode == Udp ==> sr == UdpOpen || sr == Closed) && (mode == Tcp ==> sr != UdpOpen)
  }

  ghost predicate StaticInv(l: Local) {
    && ValidChip(l.ch)
    && |l.sk.txBuf| <= 32767 && |l.sk.rxBuf| <= 32767
    && l.sk.reg.mode == l.ch.mode
    && StatusOf(l.ch.mode, l.ch.sr) && StatusOf(l.ch.mode, l.sk.reg.sr)
    && Filled(l.sk.txq) && Filled(l.sk.rxq)
    && l.ack <= l.ch.ir
  }

  // ---- Command register ------------------------------------------------------------------

  /** No command write can start while the chip still holds a command: either the mirror
      says so, or a read of CR comes first. */
  ghost predicate CrInv(s: SockNo, l: Local) {
    && (l.crFlying ==> |l.cr| >= 2 && !IsCrRead(l.cr[0], s) && IsCrRead(l.cr[1], s) && l.ch.cr == 0)
    && (l.ch.cr != 0 && l.sk.reg.cr == 0 ==> l.cr != [] && IsCrRead(l.cr[0], s))
  }

  // ---- Receive path ------------------------------------------------------------------------

  /** Where the socket stands in fetching n bytes: nothing under way; the batch pending with
      its place in the buffer reserved; the data queued but the read pointer not yet moved;
      the read pointer moved and RECV to be accepted before CHECK_RCV samples. */
  datatype RxPoint = Quiet | Reserved(at: nat, n: nat) | Committed(n: nat) | Releasing

  function RecvTail(s: SockNo): (cs: seq<Cmd>)
    ensures |cs| == 3
  {
    [CrWrite(s, CR_RECV), CrWrite(s, CR_RECV), CheckRcv(s)]
  }

  function MoveRd(s: SockNo, ch: ChipSock, n: nat): Cmd {
    WriteReg(s, Sn_RX_RD, SetU16(ToU16(ch.rxRd) + n))
  }

  /** Bytes handed out, then bytes queued, are the arrived bytes up to pos. */
  predicate Taken(l: Local, pos: nat) {
    pos <= |l.ch.arrived| && l.h.taken + Payloads(l.sk.rxBuf, l.sk.rxq) == l.ch.arrived[..pos]
  }

  ghost predicate RxQuiet(l: Local) {
    && !l.sk.receiving && l.rx == []
    && l.ch.rxRel == l.ch.rxRd
    && l.sk.reg.rxRd == ToU16(l.ch.rxRd)
    && l.sk.reg.rxRsr <= l.ch.rxWr - l.ch.rxRel
    && Layout(l.sk.rxq, |l.sk.rxBuf|)
    && Taken(l, l.ch.rxRd)
  }

  ghost predicate RxReserved(s: SockNo, l: Local, at: nat, n: nat) {
    && l.sk.receiving && 0 < n <= 16384
    && l.rx == [ReadBuf(s, at, n + 3), MoveRd(s, l.ch, n)] + RecvTail(s)
    && l.ch.rxRel == l.ch.rxRd
    && l.ch.rxRd + n <= l.ch.rxWr
    && Layout(l.sk.rxq + [Seg(at, at + n + 3, [], 0)], |l.sk.rxBuf|)
    && Take(l.sk.rxBuf, at, 3) == Header(ToU16(l.ch.rxRd), RxBlock(s), false)
    && Taken(l, l.ch.rxRd)
  }

  ghost predicate RxCommitted(s: SockNo, l: Local, n: nat) {
    && l.sk.receiving && 0 < n <= 16384
    && l.rx == [MoveRd(s, l.ch, n)] + RecvTail(s)
    && l.ch.rxRel == l.ch.rxRd
    && l.ch.rxRd + n <= l.ch.rxWr
    && Layout(l.sk.rxq, |l.sk.rxBuf|)
    && Taken(l, l.ch.rxRd + n)
  }

  ghost predicate RxReleasing(s: SockNo, l: Local) {
    && l.sk.receiving && 0 < |l.rx| <= 3 && l.rx == RecvTail(s)[3 - |l.rx|..]
    && (|l.rx| == 2 ==> l.ch.rxRel == l.ch.rxRd || l.ch.cr == CR_RECV)
    && (|l.rx| == 1 ==> l.ch.rxRel == l.ch.rxRd)
    && Layout(l.sk.rxq, |l.sk.rxBuf|)
    && Taken(l, l.ch.rxRd)
  }

  ghost predicate RxAt(s: SockNo, l: Local, p: RxPoint) {
    match p
    case Quiet => RxQuiet(l)
    case Reserved(at, n) => RxReserved(s, l, at, n)
    case Committed(n) => RxCommitted(s, l, n)
    case Releasing => RxReleasing(s, l)
  }

  /** The chip's memory holds the arrived bytes that have not been released. */
  predicate RxMemory(ch: ChipSock)
    requires ValidChip(ch)
  {
    RingRead(ch.rxMem, ch.rxRel, ch.rxWr - ch.rxRel) == ch.arrived[ch.rxRel..ch.rxWr]
  }

  // ---- Send path ---------------------------------------------------------------------------

  function MsgOf(buf: seq<byte>, g: Seg): Msg {
    Msg(Payload(buf, g), g.addr, g.port)
  }

  /** How many accepted payloads have left the send queue. */
  function Done(l: Local): int { |l.h.accepted| - |l.sk.txq| }

  /** The send queue holds the last accepted payloads, byte for byte. */
  ghost predicate TxCarried(l: Local) {
    && Done(l) >= 0
    && Layout(l.sk.txq, |l.sk.txBuf|)
    && (forall i :: 0 <= i < |l.sk.txq| ==> MsgOf(l.sk.txBuf, l.sk.txq[i]) == l.h.accepted[Done(l) + i])
    && (l.ch.mode == Tcp ==>
          forall i :: 0 <= i < |l.h.accepted| ==> l.h.accepted[i].addr == [] && l.h.accepted[i].port == 0)
  }

  predicate NoFreshEnd(l: Local) {
    SENDOK !in Fresh(l) && TIMEOUT !in Fresh(l)
  }

  /** Nothing is being sent: the mirror shows the write pointer and at most the free space. */
  ghost predicate TxQuiet(l: Local)
    requires Done(l) >= 0
  {
    && l.tx == [] && l.ch.cr != CR_SEND && !l.ch.transmitting && NoFreshEnd(l)
    && l.ch.txRd == l.ch.txWr
    && l.ch.sent == l.h.accepted[..Done(l)]
    && l.sk.reg.txWr == ToU16(l.ch.txWr)
    && l.sk.reg.txFsr <= |l.ch.txMem| - (l.ch.txWr - l.ch.txFree)
  }

  function HeadLen(l: Local): nat
    requires l.sk.txq != [] && Filled(l.sk.txq)
  {
    l.sk.txq[0].end - l.sk.txq[0].start - 3
  }

  predicate Addressed(l: Local)
    requires l.sk.txq != []
  {
    l.ch.mode == Udp ==> l.ch.dip == l.sk.txq[0].addr && l.ch.dport == l.sk.txq[0].port
  }

  /** The head payload is in the chip's memory just after what was sent. */
  ghost predicate Stored(l: Local)
    requires l.sk.txq != [] && Filled(l.sk.txq) && ValidChip(l.ch)
  {
    RingRead(l.ch.txMem, l.ch.txRd, HeadLen(l)) == Payload(l.sk.txBuf, l.sk.txq[0])
  }

  /** The batch of the head segment is partly done. */
  ghost predicate TxLoading(s: SockNo, l: Local)
    requires Done(l) >= 0 && l.sk.txq != [] && Filled(l.sk.txq) && ValidChip(l.ch)
  {
    && |l.tx| > 0 && l.ch.cr != CR_SEND && !l.ch.transmitting && NoFreshEnd(l)
    && l.ch.sent == l.h.accepted[..Done(l)]
    && var g, n := l.sk.txq[0], HeadLen(l);
    && var batch := SendBatch(s, l.ch.mode, g, ToU16(l.ch.txRd));
    && |l.tx| <= |batch| && l.tx == batch[|batch| - |l.tx|..]
    && l.ch.txRd + n <= l.ch.txFree + |l.ch.txMem|
    && l.ch.txWr == (if |l.tx| == 1 then l.ch.txRd + n else l.ch.txRd)
    && (|l.tx| >= 3 ==> Take(l.sk.txBuf, g.start, 3) == Header(ToU16(l.ch.txWr), TxBlock(s), true))
    && (|l.tx| <= 2 ==> Stored(l))
    && (l.ch.mode == Udp && |l.tx| <= 4 ==> l.ch.dip == g.addr)
    && (l.ch.mode == Udp && |l.tx| <= 3 ==> l.ch.dport == g.port)
  }

  /** No acknowledgement of an earlier end of sending is outstanding. */
  predicate EndsAcknowledged(l: Local) {
    SENDOK !in l.ack && TIMEOUT !in l.ack
  }

  /** SEND is in the command register. */
  ghost predicate TxOrdered(l: Local)
    requires Done(l) >= 0 && l.sk.txq != [] && Filled(l.sk.txq) && ValidChip(l.ch)
  {
    && l.tx == [] && l.ch.cr == CR_SEND && !l.ch.transmitting && NoFreshEnd(l) && EndsAcknowledged(l)
    && l.ch.sent == l.h.accepted[..Done(l)]
    && l.ch.txWr == l.ch.txRd + HeadLen(l) && Stored(l) && Addressed(l)
  }

  /** The head payload has been handed to the wire and its end is awaited, or the end has
      been signalled by exactly one flag that no READ_SOC has seen. */
  ghost predicate TxUnderWay(l: Local)
    requires Done(l) >= 0 && l.sk.txq != []
  {
    && l.tx == [] && l.ch.cr != CR_SEND && EndsAcknowledged(l)
    && l.ch.sent == l.h.accepted[..Done(l) + 1]
    && l.ch.txRd == l.ch.txWr
    && (if l.ch.transmitting then NoFreshEnd(l)
        else (SENDOK in Fresh(l) <==> TIMEOUT !in Fresh(l)) && (TIMEOUT in Fresh(l) ==> l.ch.mode == Udp))
  }

  ghost predicate TxStage(s: SockNo, l: Local)
    requires Done(l) >= 0 && Filled(l.sk.txq) && ValidChip(l.ch)
  {
    if !l.sk.sending then TxQuiet(l)
    else l.sk.txq != [] && (TxLoading(s, l) || TxOrdered(l) || TxUnderWay(l))
  }

  // ---- Wake-up -------------------------------------------------------------------------------

  /** Unread bytes are announced by a mirrored size, by a flag to come, or by a receive
      batch that ends in a CHECK_RCV. */
  ghost predicate Awake(l: Local) {
    !l.sk.receiving && l.sk.reg.rxRsr == 0 ==> l.ch.rxWr == l.ch.rxRd || RECV in Fresh(l)
  }

  /** The first k bytes are whole records. */
  predicate Cut(all: seq<byte>, k: nat) {
    k <= |all| && Whole(all[..k])
  }

  ghost predicate AllWhole(buf: seq<byte>, segs: seq<Seg>) {
    forall i :: 0 <= i < |segs| ==> Whole(Payload(buf, segs[i]))
  }

  /** On a UDP socket every boundary in the byte stream is a record boundary, and what has
      been taken is what has been returned as datagrams. */
  ghost predicate UdpAt(l: Local, p: RxPoint) {
    l.ch.mode == Udp ==>
      && Whole(l.ch.arrived) && Cut(l.ch.arrived, l.ch.rxRd)
      && (p.Quiet? ==> Cut(l.ch.arrived, l.ch.rxRd + l.sk.reg.rxRsr))
      && (p.Reserved? || p.Committed? ==> Cut(l.ch.arrived, l.ch.rxRd + p.n))
      && AllWhole(l.sk.rxBuf, l.sk.rxq)
      && Whole(l.h.taken) && l.h.datagrams == Parse(l.h.taken)
  }

  ghost predicate RxInv(s: SockNo, l: Local)
    requires ValidChip(l.ch)
  {
    RxMemory(l.ch) && exists p :: RxAt(s, l, p) && UdpAt(l, p)
  }

  ghost predicate TxInv(s: SockNo, l: Local)
    requires Filled(l.sk.txq) && ValidChip(l.ch)
  {
    TxCarried(l) && TxStage(s, l)
  }

  ghost predicate LInv(s: SockNo, l: Local) {
    && StaticInv(l)
    && CrInv(s, l)
    && RxInv(s, l)
    && TxInv(s, l)
    && (!l.h.lateData ==> Awake(l))
  }

  // ---- What each part depends on -----------------------------------------------------------

  predicate SameTx(l: Local, l': Local) {
    && l'.tx == l.tx && l'.sk.txq == l.sk.txq && l'.sk.txBuf == l.sk.txBuf && l'.sk.sending == l.sk.sending
    && l'.sk.reg.txWr == l.sk.reg.txWr && l'.sk.reg.txFsr == l.sk.reg.txFsr
    && l'.h.accepted == l.h.accepted
    && l'.ch == l.ch.(ir := l'.ch.ir, cr := l'.ch.cr, sr := l'.ch.sr,
                      rxMem := l'.ch.rxMem, rxRel := l'.ch.rxRel, rxRd := l'.ch.rxRd, rxWr := l'.ch.rxWr,
                      arrived := l'.ch.arrived)
    && (l'.ch.cr == CR_SEND <==> l.ch.cr == CR_SEND)
    && (forall f :: f == SENDOK || f == TIMEOUT ==> (f in l'.ch.ir <==> f in l.ch.ir) && (f in l'.ack <==> f in l.ack))
  }

  lemma TxFrame(s: SockNo, l: Local, l': Local)
    requires Filled(l.sk.txq) && ValidChip(l.ch) && ValidChip(l'.ch)
    requires TxInv(s, l) && SameTx(l, l')
    ensures Filled(l'.sk.txq) && TxInv(s, l')
  {
    hide Layout, Take, Payload, RingRead, Header, SendBatch, ToU16;
    assert TxCarried(l');
  }

  /** All bytes of a segment, SPI bytes included. */
  function SegBytes(buf: seq<byte>, g: Seg): seq<byte> {
    if g.start <= g.end then Take(buf, g.start, g.end - g.start) else []
  }

  lemma SegBytesParts(buf: seq<byte>, buf': seq<byte>, g: Seg)
    requires |buf| == |buf'| && g.start + 3 <= g.end <= |buf| && SegBytes(buf, g) == SegBytes(buf', g)
    ensures Payload(buf, g) == Payload(buf', g) && Take(buf, g.start, 3) == Take(buf', g.start, 3)
  {
    var b, b' := SegBytes(buf, g), SegBytes(buf', g);
    assert Payload(buf, g) == b[3..] && Payload(buf', g) == b'[3..];
    assert Take(buf, g.start, 3) == b[..3] && Take(buf', g.start, 3) == b'[..3];
  }

  /** The stage of sending looks at the head segment and at the history up to it. */
  lemma TxHeadFrame(s: SockNo, l: Local, l': Local)
    requires Done(l) >= 0 && Filled(l.sk.txq) && ValidChip(l.ch) && TxStage(s, l)
    requires Done(l') == Done(l) && Filled(l'.sk.txq)
    requires l'.tx == l.tx && l'.ch == l.ch && l'.ack == l.ack
    requires l'.sk.sending == l.sk.sending && l'.sk.reg == l.sk.reg
    requires l'.h.accepted[..Done(l)] == l.h.accepted[..Done(l)]
    requires l.sk.sending ==>
               && l'.sk.txq != [] && l.sk.txq != [] && l'.sk.txq[0] == l.sk.txq[0]
               && l'.h.accepted[..Done(l) + 1] == l.h.accepted[..Done(l) + 1]
               && Payload(l'.sk.txBuf, l.sk.txq[0]) == Payload(l.sk.txBuf, l.sk.txq[0])
               && Take(l'.sk.txBuf, l.sk.txq[0].start, 3) == Take(l.sk.txBuf, l.sk.txq[0].start, 3)
    ensures TxStage(s, l')
  {
    hide Layout, Take, Payload, RingRead, Header, SendBatch, ToU16;
  }

  /** The read position: what the receive queue and the reader have got. */
  function PosOf(l: Local, p: RxPoint): nat {
    if p.Committed? then l.ch.rxRd + p.n else l.ch.rxRd
  }

  /** The segments in use, the reserved one included. */
  function LiveRx(l: Local, p: RxPoint): seq<Seg> {
    if p.Reserved? then l.sk.rxq + [Seg(p.at, p.at + p.n + 3, [], 0)] else l.sk.rxq
  }

  /** More data may have arrived, RECV may have been accepted, the front of the queue may
      have been consumed. */
  lemma RxReframe(s: SockNo, l: Local, l': Local, p: RxPoint)
    requires RxAt(s, l, p)
    requires l'.rx == l.rx && l'.sk.receiving == l.sk.receiving && l'.sk.reg == l.sk.reg && l'.sk.rxBuf == l.sk.rxBuf
    requires l'.ch.rxRd == l.ch.rxRd && l.ch.rxWr <= l'.ch.rxWr
    requires l'.ch.rxRel == l.ch.rxRel || l'.ch.rxRel == l'.ch.rxRd
    requires l.ch.cr == CR_RECV ==> l'.ch.cr == CR_RECV || l'.ch.rxRel == l'.ch.rxRd
    requires Taken(l', PosOf(l, p)) && Layout(LiveRx(l', p), |l'.sk.rxBuf|)
    ensures RxAt(s, l', p)
  {
    hide Layout, Take, Payloads, RingRead, Header, SetU16, ToU16;
  }

  predicate SameRx(l: Local, l': Local) {
    && l'.rx == l.rx && l'.sk.rxq == l.sk.rxq && l'.sk.rxBuf == l.sk.rxBuf && l'.sk.receiving == l.sk.receiving
    && l'.sk.reg.rxRd == l.sk.reg.rxRd && l'.sk.reg.rxRsr == l.sk.reg.rxRsr
    && l'.h.taken == l.h.taken && l'.h.datagrams == l.h.datagrams && l'.ch.mode == l.ch.mode
    && l'.ch.rxMem == l.ch.rxMem && l'.ch.rxRel == l.ch.rxRel && l'.ch.rxRd == l.ch.rxRd && l'.ch.rxWr == l.ch.rxWr
    && l'.ch.arrived == l.ch.arrived
    && (l'.ch.cr == CR_RECV <==> l.ch.cr == CR_RECV)
  }

  lemma QuietFrame(l: Local, l': Local)
    requires RxQuiet(l) && SameRx(l, l')
    ensures RxQuiet(l')
  {
    hide Layout, Taken;
    TakenSame(l, l', l.ch.rxRd);
  }

  lemma SameMove(s: SockNo, l: Local, l': Local, n: nat)
    requires SameRx(l, l')
    ensures MoveRd(s, l'.ch, n) == MoveRd(s, l.ch, n)
  {
    hide SetU16;
  }

  lemma ReservedFrame(s: SockNo, l: Local, l': Local, at: nat, n: nat)
    requires RxReserved(s, l, at, n) && SameRx(l, l')
    ensures RxReserved(s, l', at, n)
  {
    hide Layout, Take, Taken, Header, RecvTail, MoveRd;
    SameMove(s, l, l', n);
    TakenSame(l, l', l.ch.rxRd);
  }

  lemma CommittedFrame(s: SockNo, l: Local, l': Local, n: nat)
    requires RxCommitted(s, l, n) && SameRx(l, l')
    ensures RxCommitted(s, l', n)
  {
    hide Layout, Taken, RecvTail, MoveRd;
    SameMove(s, l, l', n);
    TakenSame(l, l', l.ch.rxRd + n);
  }

  lemma ReleasingFrame(s: SockNo, l: Local, l': Local)
    requires RxReleasing(s, l) && SameRx(l, l')
    ensures RxReleasing(s, l')
  {
    hide Layout, Taken, RecvTail;
    TakenSame(l, l', l.ch.rxRd);
  }

  lemma RxAtFrame(s: SockNo, l: Local, l': Local, p: RxPoint)
    requires RxAt(s, l, p) && SameRx(l, l')
    ensures RxAt(s, l', p)
  {
    hide RxQuiet, RxReserved, RxCommitted, RxReleasing, SameRx;
    match p {
      case Quiet => QuietFrame(l, l');
      case Reserved(at, n) => ReservedFrame(s, l, l', at, n);
      case Committed(n) => CommittedFrame(s, l, l', n);
      case Releasing => ReleasingFrame(s, l, l');
    }
  }

  lemma TakenSame(l: Local, l': Local, pos: nat)
    requires Taken(l, pos) && SameRx(l, l')
    ensures Taken(l', pos)
  {
    hide Payloads;
  }

  lemma UdpAtFrame(l: Local, l': Local, p: RxPoint)
    requires UdpAt(l, p) && SameRx(l, l')
    ensures UdpAt(l', p)
  {
    hide Whole, Parse, AllWhole;
  }

  lemma RxFrame(s: SockNo, l: Local, l': Local)
    requires ValidChip(l.ch) && ValidChip(l'.ch)
    requires RxInv(s, l) && SameRx(l, l')
    ensures RxInv(s, l')
  {
    hide RxAt, UdpAt, RingRead;
    var p :| RxAt(s, l, p) && UdpAt(l, p);
    RxAtFrame(s, l, l', p);
    UdpAtFrame(l, l', p);
  }
}
