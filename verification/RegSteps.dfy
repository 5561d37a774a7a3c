/** Register traffic of one socket: the command register, the mirrors and the
    acknowledgement of interrupts. */
module RegSteps {
  import opened Bytes
  import opened Spi
  import opened RingAlloc
  import opened DriverSpec
  import opened Chip
  import opened World
  import opened Lanes
  import opened LocalInv
  import opened Records
  import opened TxSteps
  import opened RxSteps

  // ---- Command register ------------------------------------------------------------------------

  /** A command-register write starts: its read-back is queued right behind it. */
  function AfterCrStart(s: SockNo, l: Local): Local
    requires l.cr != []
  {
    l.(crFlying := true, cr := [l.cr[0], ReadCr(s)] + l.cr[1..])
  }

  /** The handshake: whenever the driver starts a command write, the chip's command register
      is free. */
  lemma CrStartsOnFree(s: SockNo, l: Local)
    requires CrInv(s, l) && l.cr != [] && !IsCrRead(l.cr[0], s) && l.sk.reg.cr == 0
    ensures l.ch.cr == 0
  {
  }

  lemma CrStartKeeps(s: SockNo, l: Local)
    requires LInv(s, l) && l.cr != [] && !IsCrRead(l.cr[0], s) && l.sk.reg.cr == 0
    ensures LInv(s, AfterCrStart(s, l))
  {
    hide RxAt, RxMemory, TxStage, TxCarried;
    var l' := AfterCrStart(s, l);
    RxFrame(s, l, l');
    TxFrame(s, l, l');
  }

  /** The transfer failed: nothing happened. */
  lemma CrStopKeeps(s: SockNo, l: Local)
    requires LInv(s, l)
    ensures LInv(s, l.(crFlying := false))
  {
    hide RxAt, RxMemory, TxStage, TxCarried;
    RxFrame(s, l, l.(crFlying := false));
    TxFrame(s, l, l.(crFlying := false));
  }

  function AfterCrWritten(l: Local, v: byte): Local
    requires l.cr != [] && (v == CR_RECV ==> l.rx != []) && (v == CR_SEND ==> l.tx != [])
  {
    l.(crFlying := false, cr := l.cr[1..], ch := l.ch.(cr := v),
       rx := if v == CR_RECV then l.rx[1..] else l.rx,
       tx := if v == CR_SEND then l.tx[1..] else l.tx)
  }

  lemma RecvOrderedPoint(s: SockNo, l: Local, p: RxPoint)
    requires RxAt(s, l, p) && l.ch.cr == 0 && l.cr != [] && l.rx != [] && l.rx[0] == CrWrite(s, CR_RECV)
    ensures p == Releasing && RxAt(s, AfterCrWritten(l, CR_RECV), Releasing)
  {
    hide Layout, Take, Payloads, Header, SetU16, Taken;
    assert p == Releasing;
    assert Taken(AfterCrWritten(l, CR_RECV), l.ch.rxRd) by { TakenFrame(l, AfterCrWritten(l, CR_RECV), l.ch.rxRd); }
  }

  lemma TakenFrame(l: Local, l': Local, pos: nat)
    requires Taken(l, pos) && l'.h == l.h && l'.sk == l.sk && l'.ch.arrived == l.ch.arrived
    ensures Taken(l', pos)
  {
  }

  lemma RecvOrdered(s: SockNo, l: Local)
    requires LInv(s, l) && l.crFlying && l.rx != [] && l.rx[0] == CrWrite(s, CR_RECV)
    ensures ValidChip(AfterCrWritten(l, CR_RECV).ch) && RxInv(s, AfterCrWritten(l, CR_RECV))
  {
    hide RxAt, RingRead, TxStage, TxCarried, Whole, Parse, AllWhole;
    var p :| RxAt(s, l, p) && UdpAt(l, p);
    RecvOrderedPoint(s, l, p);
    assert UdpAt(AfterCrWritten(l, CR_RECV), Releasing);
  }

  lemma RecvOrderedKeeps(s: SockNo, l: Local)
    requires LInv(s, l) && l.crFlying && l.rx != [] && l.rx[0] == CrWrite(s, CR_RECV)
    ensures LInv(s, AfterCrWritten(l, CR_RECV))
  {
    hide RxAt, RxMemory, TxStage, TxCarried;
    RecvOrdered(s, l);
    TxFrame(s, l, AfterCrWritten(l, CR_RECV));
  }

  lemma SendOrdered(s: SockNo, l: Local)
    requires LInv(s, l) && l.crFlying && l.tx != [] && l.tx[0] == CrWrite(s, CR_SEND) && l.ack == {}
    ensures TxInv(s, AfterCrWritten(l, CR_SEND))
  {
    hide RxAt, RxMemory, Layout, Take, RingRead, Header;
    LoadingHead(s, l);
    assert TxOrdered(AfterCrWritten(l, CR_SEND));
  }

  lemma SendOrderedKeeps(s: SockNo, l: Local)
    requires LInv(s, l) && l.crFlying && l.tx != [] && l.tx[0] == CrWrite(s, CR_SEND) && l.ack == {}
    ensures LInv(s, AfterCrWritten(l, CR_SEND))
  {
    hide RxAt, RxMemory, TxStage, TxCarried;
    SendOrdered(s, l);
    RxFrame(s, l, AfterCrWritten(l, CR_SEND));
  }

  /** A socket command of a task is in the register; the lanes of the batches do not move. */
  lemma CommandOrderedKeeps(s: SockNo, l: Local, v: byte)
    requires LInv(s, l) && l.crFlying && v != CR_SEND && v != CR_RECV
    ensures l.cr != [] && LInv(s, AfterCrWritten(l, v))
  {
    hide RxAt, RxMemory, TxStage, TxCarried;
    FreeOfSend(s, l);
    RxFrame(s, l, AfterCrWritten(l, v));
    TxFrame(s, l, AfterCrWritten(l, v));
  }

  lemma FreeOfSend(s: SockNo, l: Local)
    requires CrInv(s, l) && l.crFlying
    ensures l.ch.cr == 0 && l.cr != []
  {
  }

  function AfterCrRead(l: Local): Local
    requires l.cr != []
  {
    l.(cr := l.cr[1..], sk := l.sk.(reg := l.sk.reg.(cr := l.ch.cr)))
  }

  lemma CrReadKeeps(s: SockNo, l: Local)
    requires LInv(s, l) && l.cr != [] && IsCrRead(l.cr[0], s)
    ensures LInv(s, AfterCrRead(l))
  {
    hide RxAt, RxMemory, TxStage, TxCarried;
    RxFrame(s, l, AfterCrRead(l));
    TxFrame(s, l, AfterCrRead(l));
  }

  // ---- Mirrors -----------------------------------------------------------------------------------

  lemma SrReadKeeps(s: SockNo, l: Local)
    requires LInv(s, l)
    ensures LInv(s, l.(sk := l.sk.(reg := l.sk.reg.(sr := l.ch.sr))))
  {
    hide RxAt, RxMemory, TxStage, TxCarried;
    var l' := l.(sk := l.sk.(reg := l.sk.reg.(sr := l.ch.sr)));
    RxFrame(s, l, l');
    TxFrame(s, l, l');
  }

  function AfterTxRegs(l: Local): Local {
    l.(sk := l.sk.(reg := l.sk.reg.(txFsr := TxFsr(l.ch), txWr := ToU16(l.ch.txWr))))
  }

  /** While nothing is being sent the mirrors are refreshed; otherwise they are not used. */
  lemma TxRegsFresh(s: SockNo, l: Local, reg: Regs)
    requires StaticInv(l) && TxInv(s, l)
    requires reg.txFsr == TxFsr(l.ch) && reg.txWr == ToU16(l.ch.txWr)
    ensures TxInv(s, l.(sk := l.sk.(reg := reg)))
  {
    hide Layout, Take, RingRead, Header, Payload, SendBatch, RxAt;
    assert TxCarried(l.(sk := l.sk.(reg := reg)));
  }

  lemma TxRegsKeep(s: SockNo, l: Local)
    requires LInv(s, l)
    ensures LInv(s, AfterTxRegs(l))
  {
    hide RxAt, RxMemory, TxStage, TxCarried;
    TxRegsFresh(s, l, AfterTxRegs(l).sk.reg);
    RxFrame(s, l, AfterTxRegs(l));
  }

  function AfterMirror(l: Local): Local {
    l.(sk := l.sk.(reg := ShownRegs(l.ch)))
  }

  lemma RxRegsFresh(s: SockNo, l: Local)
    requires ValidChip(l.ch) && RxInv(s, l)
    ensures RxInv(s, AfterMirror(l))
    ensures !l.sk.receiving ==> l.ch.rxRel == l.ch.rxRd
  {
    hide RxMemory, RxAt, UdpAt;
    var p :| RxAt(s, l, p) && UdpAt(l, p);
    RxMirrored(s, l, p);
    assert RxAt(s, AfterMirror(l), p) && UdpAt(AfterMirror(l), p);
  }

  lemma RxMirrored(s: SockNo, l: Local, p: RxPoint)
    requires ValidChip(l.ch) && RxAt(s, l, p) && UdpAt(l, p)
    ensures RxAt(s, AfterMirror(l), p) && UdpAt(AfterMirror(l), p)
    ensures !l.sk.receiving ==> l.ch.rxRel == l.ch.rxRd
  {
    hide Layout, Take, Header, Payloads, SetU16, Whole, Parse, AllWhole;
    assert l.ch.arrived[..|l.ch.arrived|] == l.ch.arrived;
  }

  /** A receive path that is neither busy nor told of data has nothing unread. */
  predicate Settled(l: Local) {
    !l.sk.receiving && l.sk.reg.rxRsr == 0 ==> l.ch.rxWr == l.ch.rxRd
  }

  lemma MirrorKeeps(s: SockNo, l: Local)
    requires LInv(s, l)
    ensures LInv(s, AfterMirror(l)) && MirrorsTx(AfterMirror(l)) && Settled(AfterMirror(l))
  {
    hide RxAt, RxMemory, TxStage, TxCarried;
    var l' := AfterMirror(l);
    RxRegsFresh(s, l);
    TxRegsFresh(s, l, l'.sk.reg);
  }

  // ---- Interrupts --------------------------------------------------------------------------------

  /** The Sn_IR write has cleared what it was to clear. */
  function AfterClear(l: Local): Local {
    l.(ch := l.ch.(ir := l.ch.ir - l.ack), ack := {})
  }

  lemma ClearedTx(s: SockNo, l: Local)
    requires StaticInv(l) && TxInv(s, l)
    ensures TxInv(s, AfterClear(l))
  {
    hide Layout, Take, RingRead, Header, Payload, SendBatch, RxAt;
    assert Fresh(AfterClear(l)) == Fresh(l);
    assert TxCarried(AfterClear(l));
  }

  lemma ClearKeeps(s: SockNo, l: Local)
    requires LInv(s, l)
    ensures LInv(s, AfterClear(l))
  {
    hide RxAt, RxMemory, TxStage, TxCarried;
    assert Fresh(AfterClear(l)) == Fresh(l);
    ClearedTx(s, l);
    RxFrame(s, l, AfterClear(l));
  }

  /** READ_SOC: mirror, receive, act on an end of sending, and acknowledge. */
  function AfterSoc(s: SockNo, l: Local): Local {
    var l1 := AfterMirror(l);
    var l2 := if RECV in l.ch.ir then AfterReceivePlan(s, l1) else l1;
    if TIMEOUT in l.ch.ir || SENDOK in l.ch.ir then AfterSendPlan(s, AfterSent(l2)) else l2.(ack := l.ch.ir)
  }

  lemma QuietAckKeeps(s: SockNo, l: Local)
    requires LInv(s, l) && l.ack == {} && Settled(l) && SENDOK !in l.ch.ir && TIMEOUT !in l.ch.ir
    ensures LInv(s, l.(ack := l.ch.ir))
  {
    hide RxAt, RxMemory, TxStage, TxCarried;
    RxFrame(s, l, l.(ack := l.ch.ir));
    TxFrame(s, l, l.(ack := l.ch.ir));
  }

  lemma SentKeeps(s: SockNo, l: Local)
    requires LInv(s, l) && l.ack == {} && Settled(l) && (SENDOK in l.ch.ir || TIMEOUT in l.ch.ir) && MirrorsTx(l)
    ensures LInv(s, AfterSent(l))
  {
    hide RxAt, RxMemory, TxStage, TxCarried, Layout;
    SentKeepsTx(s, l);
    RxFrame(s, l, AfterSent(l));
  }

  lemma {:induction false} SocKeeps(s: SockNo, l: Local)
    requires LInv(s, l) && l.ack == {} && !AfterSoc(s, l).sk.clash
    ensures LInv(s, AfterSoc(s, l))
  {
    hide StaticInv, RxAt, RxMemory, TxStage, TxCarried, Layout, BufferIndex, Put, Header;
    MirrorKeeps(s, l);
    var l1 := AfterMirror(l);
    var l2 := if RECV in l.ch.ir then AfterReceivePlan(s, l1) else l1;
    if RECV in l.ch.ir { ReceivePlanKeeps(s, l1); }
    assert Settled(l2) && MirrorsTx(l2) && l2.ack == {} && l2.ch == l.ch;
    if TIMEOUT in l.ch.ir || SENDOK in l.ch.ir {
      SentKeeps(s, l2);
      SendPlanKeeps(s, AfterSent(l2));
    } else {
      QuietAckKeeps(s, l2);
    }
  }
}
