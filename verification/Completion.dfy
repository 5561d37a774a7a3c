/** The completion of a transfer keeps the invariant: the running command leaves the head of
    the pending list, its effect reaches the chip or the mirror, and the next one starts. */
module Completion {
  import opened Bytes
  import opened Spi
  import opened DriverSpec
  import opened Chip
  import opened World
  import opened Lanes
  import opened LocalInv
  import opened TxSteps
  import opened RxSteps
  import opened RegSteps
  import opened Scheduling
  import opened Invariant
  import opened TaskSteps

  /** Between the end of one transfer and the start of the next. */
  function Rest(d: Drv): Drv { d.(running := Idle, dma := NoDma) }

  lemma StartForgets(d: Drv, ok: bool)
    requires Wf(d)
    ensures Start(d, ok) == Start(Rest(d), ok)
  {
  }

  /** A transfer is in flight and it is not the poll of a busy command register. */
  predicate InFlight(d: Drv) {
    d.dma != NoDma && !Polling(d)
  }

  /** What the socket sees when the running command has left the list. */
  function Popped(l: Local, s: SockNo, c: Cmd, sk: Sock, ch: ChipSock): Local {
    Local(if On(c, RxLane(s)) && l.rx != [] then l.rx[1..] else l.rx,
          if On(c, TxLane(s)) && l.tx != [] then l.tx[1..] else l.tx,
          if On(c, CrLane(s)) && l.cr != [] then l.cr[1..] else l.cr,
          false, {}, sk, ch, l.h)
  }

  /** The running command heads its lanes. */
  predicate Heads(l: Local, s: SockNo, c: Cmd) {
    && (On(c, RxLane(s)) ==> l.rx != [] && l.rx[0] == c)
    && (On(c, TxLane(s)) ==> l.tx != [] && l.tx[0] == c)
    && (On(c, CrLane(s)) ==> l.cr != [] && l.cr[0] == c)
    && (l.crFlying <==> IsCrWrite(c) && c.sn == s)
    && l.ack == if c.ClearIr? && c.sn == s then c.flags else {}
  }

  lemma SelHead(c: Cmd, q: seq<Cmd>, lane: Lane)
    ensures On(c, lane) ==> Sel([c] + q, lane) == [c] + Sel(q, lane)
    ensures !On(c, lane) ==> Sel([c] + q, lane) == Sel(q, lane)
  {
    assert ([c] + q)[1..] == q;
  }

  lemma NoAckBehind(w: World, s: SockNo)
    requires Inv(w) && InFlight(w.d)
    ensures AckOf(w.d.queue, s) == {}
    ensures var c := w.d.running; LocalOf(w, s).ack == if c.ClearIr? && c.sn == s then c.flags else {}
  {
    hide LInv;
    var p := Pending(w.d);
    assert p == [w.d.running] + w.d.queue;
    assert w.d.queue != [] ==> p[1] == w.d.queue[0];
  }

  lemma HeadsLanes(w: World, s: SockNo)
    requires Inv(w) && InFlight(w.d)
    ensures Heads(LocalOf(w, s), s, w.d.running)
  {
    hide LInv, SchedInv, ServiceInv;
    NoAckBehind(w, s);
    InFlightHead(w);
    var c := w.d.running;
    SelHead(c, w.d.queue, RxLane(s));
    SelHead(c, w.d.queue, TxLane(s));
    SelHead(c, w.d.queue, CrLane(s));
  }

  lemma PoppedLocal(w: World, w': World, s: SockNo)
    requires Inv(w) && InFlight(w.d) && Shape(w') && Resting(w'.d) && w'.d.queue == w.d.queue && w'.hist[s] == w.hist[s]
    ensures LocalOf(w', s) == Popped(LocalOf(w, s), s, w.d.running, w'.d.socks[s], w'.chips[s])
  {
    hide LInv, SchedInv, ServiceInv;
    NoAckBehind(w, s);
    InFlightHead(w);
    var c := w.d.running;
    SelHead(c, w.d.queue, RxLane(s));
    SelHead(c, w.d.queue, TxLane(s));
    SelHead(c, w.d.queue, CrLane(s));
  }

  lemma InFlightHead(w: World)
    requires Inv(w) && InFlight(w.d)
    ensures Pending(w.d) == [w.d.running] + w.d.queue && ValidCmd(w.d.running) && w.d.dma == TransferOf(w.d.running)
    ensures forall s :: CrFlying(w.d, s) <==> IsCrWrite(w.d.running) && w.d.running.sn == s
  {
    hide LInv;
  }

  /** The command concerns socket s. */
  predicate Concerns(c: Cmd, s: nat) {
    !c.Idle? && !c.ReadSir? && c.sn == s
  }

  /** A socket that the command does not concern sees no change. */
  lemma PoppedOther(w: World, w': World, s: SockNo)
    requires Inv(w) && InFlight(w.d) && Shape(w') && Resting(w'.d) && w'.d.queue == w.d.queue
    requires !Concerns(w.d.running, s)
    requires w'.d.socks[s] == w.d.socks[s] && w'.chips[s] == w.chips[s] && w'.hist[s] == w.hist[s]
    ensures LocalOf(w', s) == LocalOf(w, s)
  {
    hide LInv, SchedInv, ServiceInv;
    PoppedLocal(w, w', s);
    HeadsLanes(w, s);
    InFlightHead(w);
  }

  lemma PoppedService(p: seq<Cmd>, chips: seq<ChipSock>, chips': seq<ChipSock>)
    requires |chips| == SOCKETS == |chips'| && p != [] && ServiceInv(p, chips)
    requires forall s :: 0 <= s < SOCKETS && !(p[0].ClearIr? && p[0].sn == s) ==> chips'[s].ir == chips[s].ir
    ensures ServiceInv(p[1..], chips')
  {
    var q := p[1..];
    assert forall i :: 0 <= i < |q| ==> q[i] == p[i + 1];
  }

  lemma RestSched(d: Drv, d': Drv)
    requires SchedInv(d) && Resting(d') && d'.queue == d.queue && Wf(d')
    ensures SchedInv(d') && Pending(d') == d.queue
  {
  }

  /** Everything but the view of socket sn is taken care of. */
  lemma PoppedOne(w: World, w': World, sn: SockNo)
    requires Inv(w) && InFlight(w.d) && Concerns(w.d.running, sn)
    requires Shape(w') && Resting(w'.d) && w'.d.queue == w.d.queue
    requires w'.hist == w.hist && w'.d.socks == w.d.socks[sn := w'.d.socks[sn]]
             && w'.chips == w.chips[sn := w'.chips[sn]]
    requires !w.d.running.ClearIr? ==> w'.chips[sn].ir == w.chips[sn].ir
    requires LInv(sn, LocalOf(w', sn))
    ensures Inv(w')
  {
    hide LInv, LocalOf, SchedInv, ServiceInv;
    InFlightHead(w);
    InvIsShape(w);
    RestSched(w.d, w'.d);
    assert Pending(w.d)[1..] == w.d.queue;
    PoppedService(Pending(w.d), w.chips, w'.chips);
    forall s: SockNo
      ensures LInv(s, LocalOf(w', s))
    {
      if s != sn { PoppedOther(w, w', s); }
    }
  }

  /** A command that concerns no socket and changes nothing. */
  lemma PoppedNone(w: World, w': World)
    requires Inv(w) && InFlight(w.d) && (forall s: SockNo :: !Concerns(w.d.running, s))
    requires Shape(w') && Resting(w'.d) && w'.d.queue == w.d.queue
    requires w'.hist == w.hist && w'.d.socks == w.d.socks && w'.chips == w.chips
    ensures Inv(w')
  {
    hide LInv, LocalOf, SchedInv, ServiceInv;
    InFlightHead(w);
    InvIsShape(w);
    RestSched(w.d, w'.d);
    assert Pending(w.d)[1..] == w.d.queue;
    PoppedService(Pending(w.d), w.chips, w'.chips);
    forall s: SockNo
      ensures LInv(s, LocalOf(w', s))
    {
      PoppedOther(w, w', s);
    }
  }

  // ---- Writes ----------------------------------------------------------------------------------

  /** The world after the running write has reached the chip. */
  function Written(w: World): World
    requires Shape(w)
  {
    w.(d := Rest(w.d), chips := ChipsAfter(w))
  }

  lemma WrittenShape(w: World, sn: SockNo, ch: ChipSock)
    requires Shape(w) && w.d.dma == Tx && Concerns(w.d.running, sn) && ValidChip(ch)
    requires AfterWrite(w.chips[sn], w.d.running, w.d.socks[sn].txBuf) == ch
    ensures var w' := Written(w);
            Shape(w') && w' == w.(d := Rest(w.d), chips := w.chips[sn := ch])
  {
    hide AfterWrite;
  }

  lemma WrittenOne(w: World, sn: SockNo, ch: ChipSock)
    requires Inv(w) && InFlight(w.d) && Concerns(w.d.running, sn) && w.d.dma == Tx
    requires AfterWrite(w.chips[sn], w.d.running, w.d.socks[sn].txBuf) == ch
    requires !w.d.running.ClearIr? ==> ch.ir == w.chips[sn].ir
    requires ValidChip(ch) && LInv(sn, Popped(LocalOf(w, sn), sn, w.d.running, w.d.socks[sn], ch))
    ensures Inv(Written(w))
  {
    hide LInv, LocalOf, SchedInv, ServiceInv, AfterWrite, Popped, Written;
    WrittenShape(w, sn, ch);
    PoppedLocal(w, Written(w), sn);
    PoppedOne(w, Written(w), sn);
  }

  /** A command-register write of a send batch, of a receive batch, or of a task. */
  lemma CrWrittenView(s: SockNo, l: Local, v: byte)
    requires LInv(s, l) && Heads(l, s, CrWrite(s, v))
    ensures l.cr != [] && (v == CR_RECV ==> l.rx != []) && (v == CR_SEND ==> l.tx != [])
    ensures Popped(l, s, CrWrite(s, v), l.sk, l.ch.(cr := v)) == AfterCrWritten(l, v) && LInv(s, AfterCrWritten(l, v))
  {
    hide LInv;
    if v == CR_RECV {
      RecvOrderedKeeps(s, l);
    } else if v == CR_SEND {
      SendOrderedKeeps(s, l);
    } else {
      CommandOrderedKeeps(s, l, v);
    }
  }

  lemma LInvValid(s: SockNo, l: Local)
    requires LInv(s, l)
    ensures ValidChip(l.ch)
  {
    hide CrInv, RxInv, TxInv, Awake;
  }

  lemma CrWrittenKeeps(w: World, sn: SockNo, v: byte)
    requires Inv(w) && InFlight(w.d) && w.d.running == CrWrite(sn, v)
    ensures Inv(Written(w))
  {
    hide LInv, LocalOf, SchedInv, ServiceInv, Popped, Written, Heads;
    ViewOf(w, sn);
    var l := LocalOf(w, sn);
    CrWrittenView(sn, l, v);
    LInvValid(sn, AfterCrWritten(l, v));
    WrittenOne(w, sn, l.ch.(cr := v));
  }

  lemma ViewOf(w: World, s: SockNo)
    requires Inv(w)
    ensures var l := LocalOf(w, s); LInv(s, l) && l.sk == w.d.socks[s] && l.ch == w.chips[s] && l.h == w.hist[s]
    ensures InFlight(w.d) ==>
              Heads(LocalOf(w, s), s, w.d.running) && w.d.dma == TransferOf(w.d.running) && ValidCmd(w.d.running)
  {
    hide LInv, SchedInv, ServiceInv, Heads;
    if InFlight(w.d) {
      HeadsLanes(w, s);
      InFlightHead(w);
    }
  }

  /** A transfer of the send batch other than its command. */
  lemma TxWrittenView(s: SockNo, l: Local, c: Cmd)
    requires LInv(s, l) && Heads(l, s, c) && On(c, TxLane(s)) && !IsCrWrite(c)
    ensures |l.ch.txMem| > 0 && l.tx != []
    ensures AfterWrite(l.ch, c, l.sk.txBuf) == AfterTxWrite(l).ch
    ensures Popped(l, s, c, l.sk, AfterTxWrite(l).ch) == AfterTxWrite(l) && LInv(s, AfterTxWrite(l))
  {
    hide LInv, AfterWrite;
    LInvValid(s, l);
    TxWriteKeeps(s, l);
  }

  lemma TxWrittenKeeps(w: World, sn: SockNo)
    requires Inv(w) && InFlight(w.d) && On(w.d.running, TxLane(sn)) && !IsCrWrite(w.d.running)
    ensures Inv(Written(w))
  {
    hide LInv, LocalOf, SchedInv, ServiceInv, Popped, Written, Heads, AfterWrite;
    ViewOf(w, sn);
    var l := LocalOf(w, sn);
    TxWrittenView(sn, l, w.d.running);
    LInvValid(sn, AfterTxWrite(l));
    WriteKeepsFlags(l.ch, w.d.running, l.sk.txBuf);
    WrittenOne(w, sn, AfterTxWrite(l).ch);
  }

  lemma WriteKeepsFlags(ch: ChipSock, c: Cmd, txBuf: seq<byte>)
    requires |ch.txMem| > 0 && !c.ClearIr?
    ensures AfterWrite(ch, c, txBuf).ir == ch.ir
  {
  }

  lemma RxRdWrittenView(s: SockNo, l: Local, c: Cmd)
    requires LInv(s, l) && Heads(l, s, c) && c.WriteReg? && c.sn == s && c.off == Sn_RX_RD
    ensures |l.ch.txMem| > 0 && l.rx != []
    ensures AfterWrite(l.ch, c, l.sk.txBuf) == AfterRxRd(l).ch
    ensures Popped(l, s, c, l.sk, AfterRxRd(l).ch) == AfterRxRd(l) && LInv(s, AfterRxRd(l))
  {
    hide LInv, AfterWrite;
    LInvValid(s, l);
    RxRdKeeps(s, l);
  }

  lemma RxRdWrittenKeeps(w: World, sn: SockNo)
    requires Inv(w) && InFlight(w.d) && w.d.running.WriteReg? && w.d.running.sn == sn && w.d.running.off == Sn_RX_RD
    ensures Inv(Written(w))
  {
    hide LInv, LocalOf, SchedInv, ServiceInv, Popped, Written, Heads, AfterWrite;
    ViewOf(w, sn);
    var l := LocalOf(w, sn);
    RxRdWrittenView(sn, l, w.d.running);
    LInvValid(sn, AfterRxRd(l));
    WriteKeepsFlags(l.ch, w.d.running, l.sk.txBuf);
    WrittenOne(w, sn, AfterRxRd(l).ch);
  }

  /** Socket options are not part of the state. */
  lemma OptionWrittenKeeps(w: World, sn: SockNo)
    requires Inv(w) && InFlight(w.d) && w.d.running.WriteReg? && w.d.running.sn == sn && OptionReg(sn, w.d.running.off)
    ensures Inv(Written(w))
  {
    hide LInv, LocalOf, SchedInv, ServiceInv, Written;
    ViewOf(w, sn);
    LInvValid(sn, LocalOf(w, sn));
    assert Popped(LocalOf(w, sn), sn, w.d.running, w.d.socks[sn], w.chips[sn]) == LocalOf(w, sn);
    WrittenOne(w, sn, w.chips[sn]);
  }

  lemma ClearedView(s: SockNo, l: Local, c: Cmd)
    requires LInv(s, l) && Heads(l, s, c) && c.ClearIr? && c.sn == s
    ensures |l.ch.txMem| > 0
    ensures AfterWrite(l.ch, c, l.sk.txBuf) == AfterClear(l).ch
    ensures Popped(l, s, c, l.sk, AfterClear(l).ch) == AfterClear(l) && LInv(s, AfterClear(l))
  {
    hide LInv;
    LInvValid(s, l);
    ClearKeeps(s, l);
  }

  lemma ClearedKeeps(w: World, sn: SockNo)
    requires Inv(w) && InFlight(w.d) && w.d.running.ClearIr? && w.d.running.sn == sn
    ensures Inv(Written(w))
  {
    hide LInv, LocalOf, SchedInv, ServiceInv, Popped, Written, Heads;
    ViewOf(w, sn);
    var l := LocalOf(w, sn);
    ClearedView(sn, l, w.d.running);
    LInvValid(sn, AfterClear(l));
    WrittenOne(w, sn, AfterClear(l).ch);
  }

  lemma ElsewhereWrittenKeeps(w: World)
    requires Inv(w) && InFlight(w.d) && w.d.running.WriteReg? && w.d.running.sn >= SOCKETS
    ensures Inv(Written(w))
  {
    hide LInv, LocalOf, SchedInv, ServiceInv;
    InvIsShape(w);
    InFlightHead(w);
    PoppedNone(w, Written(w));
  }

  lemma WriteCompletes(w: World)
    requires Inv(w) && InFlight(w.d) && w.d.dma == Tx
    ensures Inv(Written(w))
  {
    hide Inv, Written;
    InFlightHead(w);
    var c := w.d.running;
    match c {
      case WriteReg(sn, off, data) =>
        if sn >= SOCKETS { ElsewhereWrittenKeeps(w); }
        else if off == Sn_CR { CrWrittenKeeps(w, sn, data[0]); }
        else if off == Sn_RX_RD { RxRdWrittenKeeps(w, sn); }
        else if off == Sn_DIPR || off == Sn_DPORT || off == Sn_TX_WR { TxWrittenKeeps(w, sn); }
        else { OptionWrittenKeeps(w, sn); }
      case ClearIr(sn, flags) => ClearedKeeps(w, sn);
      case WriteBuf(sn, start, len) => TxWrittenKeeps(w, sn);
      case _ =>
    }
  }
}
