/** When the driver starts to fetch and to send: at every event that asks for it, as soon as the
    mirrors and the buffers allow it, and at no other. */
module Starting {
  import opened Bytes
  import opened Spi
  import opened RingAlloc
  import opened DriverSpec
  import opened Chip
  import opened World
  import opened Lanes
  import opened LocalInv
  import opened TxSteps
  import opened Scheduling
  import opened Invariant
  import opened Appending
  import opened TaskSteps
  import opened Completion
  import opened ReadCompletion
  import opened Theorems
  import opened Order
  import opened Waiting

  // ---- One socket record -----------------------------------------------------------------------------

  /** The socket is open, its mirror shows received bytes and there is a place for them. */
  predicate Fetchable(sk: Sock) {
    && sk.reg.sr in {Established, CloseWait, UdpOpen} && sk.reg.rxRsr > 0
    && BufferIndex(sk.rxq, |sk.rxBuf|, ToU16(sk.reg.rxRsr + 3)) != -1
  }

  /** The socket is open, a payload is queued and the oldest fits the mirrored free space. */
  predicate Sendable(sk: Sock) {
    sk.reg.sr in {Established, CloseWait, UdpOpen} && sk.txq != [] && HeadFits(sk, sk.reg.txFsr)
  }

  predicate SameSendSide(sk: Sock, sk': Sock) {
    sk'.reg == sk.reg && sk'.txq == sk.txq && sk'.sending == sk.sending
  }

  predicate SameReceiveSide(sk: Sock, sk': Sock) {
    && sk'.reg == sk.reg && sk'.rxq == sk.rxq && |sk'.rxBuf| == |sk.rxBuf| && sk'.receiving == sk.receiving
  }

  lemma ReceivePlanStarts(sk: Sock, sn: SockNo)
    ensures var sk' := ReceivePlan(sk, sn).0;
            SameSendSide(sk, sk') && (sk'.receiving <==> sk.receiving || Fetchable(sk'))
  {
    hide Put, Header, RecvBatch, BufferIndex;
  }

  lemma SendPlanStarts(sk: Sock, sn: SockNo)
    ensures var sk' := SendPlan(sk, sn).0;
            SameReceiveSide(sk, sk') && (sk'.sending <==> sk.sending || Sendable(sk'))
  {
    hide Put, Header, SendBatch;
  }

  lemma SameFetchable(sk: Sock, sk': Sock)
    requires SameReceiveSide(sk, sk')
    ensures Fetchable(sk') <==> Fetchable(sk)
  {
    hide BufferIndex;
  }

  // ---- Events ----------------------------------------------------------------------------------------

  /** The transfer of command c completes. */
  predicate Finishes(w: World, ev: Event, c: Cmd) {
    ev.Complete? && InFlight(w.d) && w.d.running == c
  }

  /** A recv or recvfrom call, a READ_SOC that finds RECV raised, the CHECK_RCV at the end of a
      fetch. */
  predicate AsksToFetch(w: World, ev: Event, s: SockNo)
    requires Shape(w)
  {
    || ((ev.TaskRecv? || ev.TaskRecvFrom?) && ev.sn == s && ev.len > 0)
    || (Finishes(w, ev, ReadSoc(s)) && RECV in w.chips[s].ir)
    || Finishes(w, ev, CheckRcv(s))
  }

  /** A READ_SOC finds the end of sending. */
  predicate EndsSending(w: World, ev: Event, s: SockNo)
    requires Shape(w)
  {
    Finishes(w, ev, ReadSoc(s)) && Ended(w.chips[s].ir)
  }

  /** A send or sendto call that is not refused, a CHECK_TX_FSR, the end of sending. */
  predicate AsksToSend(w: World, ev: Event, s: SockNo)
    requires Shape(w) && Enabled(w, ev)
  {
    || (ev.TaskSend? && ev.sn == s && !Refused(Send(w.d, s, ev.buf, ev.ok).1))
    || (ev.TaskSendTo? && ev.sn == s && !Refused(SendTo(w.d, s, ev.buf, ev.addr, ev.port, ev.ok).1))
    || Finishes(w, ev, CheckTxFsr(s))
    || EndsSending(w, ev, s)
  }

  /** After the event the socket receives if it did and the fetch has not ended, or if the event
      asks for a fetch and one is possible; likewise it sends. */
  predicate Started(w: World, ev: Event, s: SockNo, sk': Sock)
    requires Shape(w) && Enabled(w, ev)
  {
    var sk := w.d.socks[s];
    && (sk'.receiving <==> (sk.receiving && !Finishes(w, ev, CheckRcv(s))) || (AsksToFetch(w, ev, s) && Fetchable(sk')))
    && (sk'.sending <==> (sk.sending && !EndsSending(w, ev, s)) || (AsksToSend(w, ev, s) && Sendable(sk')))
  }

  /** A READ_REG of one byte of register off of socket s completes. */
  predicate ReadsRegister(w: World, ev: Event, s: SockNo, off: u16) {
    && ev.Complete? && InFlight(w.d) && w.d.running.ReadReg?
    && w.d.running.sn == s && w.d.running.off == off && w.d.running.count == 1
  }

  /** The mirrors after an event: what a completed read brings is the chip's, and nothing else
      changes. */
  function MirrorsAfter(w: World, ev: Event, s: SockNo): Regs
    requires Shape(w)
  {
    var reg, ch := w.d.socks[s].reg, w.chips[s];
    if Finishes(w, ev, ReadSoc(s)) then ShownRegs(ch)
    else if Finishes(w, ev, CheckRcv(s)) then reg.(rxRsr := RxRsr(ch), rxRd := ToU16(ch.rxRd))
    else if Finishes(w, ev, CheckTxFsr(s)) then reg.(txFsr := TxFsr(ch), txWr := ToU16(ch.txWr))
    else if ReadsRegister(w, ev, s, Sn_CR) then reg.(cr := ch.cr)
    else if ReadsRegister(w, ev, s, Sn_SR) then reg.(sr := ch.sr)
    else reg
  }

  predicate Settled(w: World, ev: Event, s: SockNo, sk': Sock)
    requires Shape(w) && Enabled(w, ev)
  {
    Started(w, ev, s, sk') && sk'.reg == MirrorsAfter(w, ev, s)
  }

  lemma SendCallStarts(w: World, sn: nat, buf: seq<byte>, ok: bool, s: SockNo)
    requires Shape(w) && |buf| < 65536
    ensures var d' := Send(w.d, sn, buf, ok).0; Wf(d') && Started(w, TaskSend(sn, buf, ok), s, d'.socks[s])
  {
    hide Send, SendPending, Enqueue, Fetchable, Sendable, Refused;
    SendEffect(w.d, sn, buf, ok);
    if !Refused(Send(w.d, sn, buf, ok).1) { EnqueueStarts(w.d, sn, buf, [], 0, ok, s); }
  }

  lemma SendToCallStarts(w: World, sn: nat, buf: seq<byte>, addr: seq<byte>, port: u16, ok: bool, s: SockNo)
    requires Shape(w) && |buf| < 65536 && |addr| == 4
    ensures var d' := SendTo(w.d, sn, buf, addr, port, ok).0;
            Wf(d') && Started(w, TaskSendTo(sn, buf, addr, port, ok), s, d'.socks[s])
  {
    hide SendTo, SendPending, Enqueue, Fetchable, Sendable, Refused;
    SendToEffect(w.d, sn, buf, addr, port, ok);
    if !Refused(SendTo(w.d, sn, buf, addr, port, ok).1) { EnqueueStarts(w.d, sn, buf, addr, port, ok, s); }
  }

  lemma EnqueueStarts(d: Drv, sn: SockNo, buf: seq<byte>, addr: seq<byte>, port: u16, ok: bool, s: SockNo)
    requires Wf(d)
    ensures var sk' := SendPending(SetSock(d, sn, Enqueue(d.socks[sn], buf, addr, port).0), sn, ok).socks[s];
            && sk'.receiving == d.socks[s].receiving
            && (sk'.sending <==> d.socks[s].sending || (sn == s && Sendable(sk')))
  {
    hide SendPending, SendPlan, Enqueue, HeadFits;
    var sk1 := Enqueue(d.socks[sn], buf, addr, port).0;
    PendingSocks(d, sn, sk1, ok, s);
    EnqueueReg(d.socks[sn], buf, addr, port);
    EnqueueSending(d.socks[sn], buf, addr, port);
    SendPlanStarts(sk1, sn);
  }

  lemma EnqueueSending(sk: Sock, buf: seq<byte>, addr: seq<byte>, port: u16)
    ensures Enqueue(sk, buf, addr, port).0.sending == sk.sending
  {
    hide BufferIndex, Put;
  }

  lemma RecvCallStarts(w: World, sn: nat, len: u16, ok: bool, s: SockNo)
    requires Shape(w) && Enabled(w, TaskRecv(sn, len, ok))
    ensures var d' := Recv(w.d, sn, len, ok).0; Wf(d') && Started(w, TaskRecv(sn, len, ok), s, d'.socks[s])
  {
    hide ReceivePending, RecvCopy, Fetchable, Sendable;
    if sn < SOCKETS {
      RecvCopyReg(w.d.socks[sn], len);
      CopySame(w.d.socks[sn], len);
      TakenStarts(w.d, sn, RecvCopy(w.d.socks[sn], len).0, ok, s);
    }
  }

  lemma RecvFromCallStarts(w: World, sn: nat, len: u16, ok: bool, s: SockNo)
    requires Shape(w) && Enabled(w, TaskRecvFrom(sn, len, ok))
    ensures var d' := RecvFrom(w.d, sn, len, ok).0; Wf(d') && Started(w, TaskRecvFrom(sn, len, ok), s, d'.socks[s])
  {
    hide ReceivePending, TakeDatagram, Fetchable, Sendable;
    if sn < SOCKETS {
      TakenReg(w.d.socks[sn], len);
      TakenSameQueue(w.d.socks[sn], len);
      TakenStarts(w.d, sn, TakeDatagram(w.d.socks[sn], len).0, ok, s);
    }
  }

  lemma TakenStarts(d: Drv, sn: SockNo, sk1: Sock, ok: bool, s: SockNo)
    requires Wf(d) && SameSendSide(d.socks[sn], sk1) && sk1.receiving == d.socks[sn].receiving
    ensures var sk' := ReceivePending(SetSock(d, sn, sk1), sn, ok).socks[s];
            && sk'.sending == d.socks[s].sending
            && (sk'.receiving <==> d.socks[s].receiving || (sn == s && Fetchable(sk')))
  {
    hide ReceivePending, ReceivePlan, Fetchable;
    PendingSocks(d, sn, sk1, ok, s);
    ReceivePlanStarts(sk1, sn);
  }

  // ---- Completions -------------------------------------------------------------------------------------

  /** READ_SOC changes the record of its socket only, and as planned. */
  lemma SocSocks(d: Drv, sn: SockNo, s: SockNo)
    requires Wf(d) && OneEnd(d.socks[sn].reg.ir, d.socks[sn].reg.mode)
    ensures HandleSoc(d, sn).socks[s] == if s == sn then SocPlan(d.socks[sn], sn).0 else d.socks[s]
  {
    hide ReceivePending, ReceivePlan, SendPending, SendPlan, PopSent;
    var ir := d.socks[sn].reg.ir;
    SetSame(d, sn);
    PendingSocks(d, sn, d.socks[sn], true, s);
    PendingSocks(d, sn, d.socks[sn], true, sn);
    PlansKeepRegs(d.socks[sn], sn);
    var d1 := if RECV in ir then ReceivePending(d, sn, true) else d;
    PendingSocks(d1, sn, PopSent(d1.socks[sn]), true, s);
  }

  lemma SocPlanStarts(sk: Sock, sn: SockNo)
    ensures var sk' := SocPlan(sk, sn).0;
            && sk'.reg == sk.reg
            && (sk'.receiving <==> sk.receiving || (RECV in sk.reg.ir && Fetchable(sk')))
            && (sk'.sending <==> if Ended(sk.reg.ir) then Sendable(sk') else sk.sending)
  {
    hide ReceivePlan, SendPlan, Fetchable, Sendable, Ended;
    var sk1 := if RECV in sk.reg.ir then ReceivePlan(sk, sn).0 else sk;
    ReceivePlanStarts(sk, sn);
    if Ended(sk.reg.ir) {
      var sk2 := SendPlan(PopSent(sk1), sn).0;
      SendPlanStarts(PopSent(sk1), sn);
      SameFetchable(sk1, sk2);
    }
  }

  lemma ReadSocSettles(w: World, s: SockNo)
    requires Inv(w) && InFlight(w.d) && w.d.running.ReadSoc? && w.d.running.sn < SOCKETS && w.d.dma == TxRx
    ensures Wf(ReadDone(w).d) && Settled(w, Complete(true), s, ReadDone(w).d.socks[s])
  {
    hide LInv, SchedInv, ServiceInv, HandleSoc, SocPlan, Fetchable, Sendable;
    var sn := w.d.running.sn;
    OneEndSeen(w, sn);
    var d1 := SetSock(w.d, sn, w.d.socks[sn].(reg := ShownRegs(w.chips[sn])));
    SocSocks(d1, sn, s);
    SocPlanStarts(d1.socks[sn], sn);
  }

  lemma CheckTxSettles(w: World, s: SockNo)
    requires Shape(w) && InFlight(w.d) && w.d.running.CheckTxFsr? && w.d.running.sn < SOCKETS && w.d.dma == TxRx
    ensures Wf(ReadDone(w).d) && Settled(w, Complete(true), s, ReadDone(w).d.socks[s])
  {
    hide SendPending, SendPlan, Fetchable, Sendable;
    var sn := w.d.running.sn;
    var sk := w.d.socks[sn];
    var sk1 := sk.(reg := sk.reg.(txFsr := TxFsr(w.chips[sn]), txWr := ToU16(w.chips[sn].txWr)));
    PendingSocks(w.d, sn, sk1, true, s);
    SendPlanStarts(sk1, sn);
  }

  lemma CheckRcvSettles(w: World, s: SockNo)
    requires Shape(w) && InFlight(w.d) && w.d.running.CheckRcv? && w.d.running.sn < SOCKETS && w.d.dma == TxRx
    ensures Wf(ReadDone(w).d) && Settled(w, Complete(true), s, ReadDone(w).d.socks[s])
  {
    hide ReceivePending, ReceivePlan, Fetchable, Sendable;
    var sn := w.d.running.sn;
    var sk := w.d.socks[sn];
    var sk1 := sk.(reg := sk.reg.(rxRsr := RxRsr(w.chips[sn]), rxRd := ToU16(w.chips[sn].rxRd)), receiving := false);
    PendingSocks(w.d, sn, sk1, true, s);
    PlansKeepRegs(sk1, sn);
    ReceivePlanStarts(sk1, sn);
  }

  lemma RegisterReadSettles(w: World, s: SockNo)
    requires Shape(w) && InFlight(w.d) && w.d.dma == TxRx && w.d.running.ReadReg?
    ensures Wf(ReadDone(w).d) && Settled(w, Complete(true), s, ReadDone(w).d.socks[s])
  {
    hide Fetchable, Sendable, Refused, ShownRegs, Ended, Sir;
  }

  lemma OtherReadSettles(w: World, s: SockNo)
    requires Shape(w) && InFlight(w.d) && w.d.dma == TxRx && (w.d.running.ReadBuf? || w.d.running.ReadSir?)
    ensures Wf(ReadDone(w).d) && Settled(w, Complete(true), s, ReadDone(w).d.socks[s])
  {
    hide Put, ReadReply, PushSocs, Sir, Fetchable, Sendable, Refused, ShownRegs, Ended;
  }

  lemma LandedSettles(w: World, s: SockNo)
    requires Inv(w) && w.d.dma != NoDma
    ensures Wf(Landed(w).d) && Settled(w, Complete(true), s, Landed(w).d.socks[s])
  {
    hide Inv, ReadDone, SchedInv, Fetchable, Sendable, Started;
    InvIsShape(w);
    if Polling(w.d) || w.d.dma == Tx {
      WriteSettles(w, s);
    } else {
      InFlightDma(w);
      InFlightHead(w);
      match w.d.running {
        case ReadReg(sn, off, count, back) => RegisterReadSettles(w, s);
        case ReadBuf(sn, start, len) => OtherReadSettles(w, s);
        case ReadSir(_) => OtherReadSettles(w, s);
        case ReadSoc(sn) => ReadSocSettles(w, s);
        case CheckRcv(sn) => CheckRcvSettles(w, s);
        case CheckTxFsr(sn) => CheckTxSettles(w, s);
        case _ =>
      }
    }
  }

  lemma WriteSettles(w: World, s: SockNo)
    requires Inv(w) && (Polling(w.d) || w.d.dma == Tx)
    ensures Wf(Landed(w).d) && Settled(w, Complete(true), s, Landed(w).d.socks[s])
  {
    hide LInv, ServiceInv, ChipsAfter, Fetchable, Sendable;
    if InFlight(w.d) { InFlightHead(w); }
  }

  lemma CompleteSettles(w: World, ok: bool, s: SockNo)
    requires Inv(w) && w.d.dma != NoDma
    ensures Wf(Step(w, Complete(ok)).d) && Settled(w, Complete(ok), s, Step(w, Complete(ok)).d.socks[s])
  {
    hide Inv, Start, Landed, SchedInv, Fetchable, Sendable, TransferComplete, ReplyOf, ChipsAfter;
    InvIsShape(w);
    CompletionSplits(w, ok);
    LandedSettles(w, s);
  }

  // ---- Any event ---------------------------------------------------------------------------------------

  /** Register accesses, ticks, failures and the chip's own events. */
  lemma OtherEventSettles(w: World, ev: Event, s: SockNo)
    requires Shape(w) && Enabled(w, ev) && Wf(Step(w, ev).d) && Step(w, ev).d.socks == w.d.socks
    requires ev.TaskSetReg? || ev.TaskGetReg? || ev.Timer? || ev.AsyncFailure? || ev.ChipStep?
    ensures Settled(w, ev, s, Step(w, ev).d.socks[s])
  {
    hide Step, Enabled, Fetchable, Sendable, Refused, ShownRegs, Ended;
  }

  lemma OtherEventSocks(w: World, ev: Event)
    requires Shape(w) && Enabled(w, ev)
    requires ev.TaskSetReg? || ev.TaskGetReg? || ev.Timer? || ev.AsyncFailure? || ev.ChipStep?
    ensures Wf(Step(w, ev).d) && Step(w, ev).d.socks == w.d.socks
  {
    hide PushBack, TimerCallback, InterruptCallback, HandleSpiFailure, AfterEvent, StaleRecv, Sir;
    FailureSocks(w.d);
  }

  /** Every event, in every state that satisfies the invariant: a socket is receiving afterwards if
      and only if it was and its fetch has not just ended, or the event asks for a fetch and the
      mirrors and the buffer then allow one; likewise for sending; and its mirrors change only by
      completed reads, to what the chip shows. */
  lemma StartsExactlyWhen(w: World, ev: Event, s: SockNo)
    requires Inv(w) && Enabled(w, ev)
    ensures Wf(Step(w, ev).d) && Settled(w, ev, s, Step(w, ev).d.socks[s])
  {
    hide Inv, Send, SendTo, Recv, RecvFrom, TransferComplete, ReplyOf, ChipsAfter, Removed, TakeDatagram, Started;
    InvIsShape(w);
    match ev {
      case TaskSend(sn, buf, ok) =>
        SendCallStarts(w, sn, buf, ok, s);
        SendCallStatus(w, ev, s);
      case TaskSendTo(sn, buf, addr, port, ok) =>
        SendToCallStarts(w, sn, buf, addr, port, ok, s);
        SendCallStatus(w, ev, s);
      case TaskRecv(sn, len, ok) =>
        RecvCallStarts(w, sn, len, ok, s);
        ReceiveCallStatus(w, ev, s);
      case TaskRecvFrom(sn, len, ok) =>
        RecvFromCallStarts(w, sn, len, ok, s);
        ReceiveCallStatus(w, ev, s);
      case Complete(ok) => CompleteSettles(w, ok, s);
      case _ =>
        OtherEventSocks(w, ev);
        OtherEventSettles(w, ev, s);
    }
  }

  /** A TCP timeout, with which a run as modelled ends: every queued payload is dropped and nothing
      is sent, whatever else is flagged; received data is fetched as always. */
  lemma TcpTimeoutDrops(d: Drv, sn: SockNo)
    requires Wf(d) && d.socks[sn].reg.mode == Tcp && TIMEOUT in d.socks[sn].reg.ir
    ensures var sk, sk' := d.socks[sn], HandleSoc(d, sn).socks[sn];
            && sk'.txq == [] && !sk'.sending
            && (sk'.receiving <==> sk.receiving || (RECV in sk.reg.ir && Fetchable(sk')))
  {
    hide ReceivePending, ReceivePlan, SendPending, SendPlan, Fetchable;
    var ir := d.socks[sn].reg.ir;
    SetSame(d, sn);
    PendingSocks(d, sn, d.socks[sn], true, sn);
    ReceivePlanStarts(d.socks[sn], sn);
    var d1 := if RECV in ir then ReceivePending(d, sn, true) else d;
    var d2 := SetSock(d1, sn, d1.socks[sn].(sending := false, txq := []));
    PendingSocks(d2, sn, PopSent(d2.socks[sn]), true, sn);
    NothingPlanned(PopSent(d2.socks[sn]), sn);
    SameFetchable(d1.socks[sn], HandleSoc(d, sn).socks[sn]);
  }

  lemma NothingPlanned(sk: Sock, sn: SockNo)
    requires sk.txq == []
    ensures SendPlan(sk, sn) == (sk, [])
  {
  }

  // ---- The lanes of one socket ---------------------------------------------------------------------------

  /** The lanes of the receive and of the send batches hold commands pushed to the back. */
  lemma {:induction false} SelSel(p: seq<Cmd>, lane: Lane)
    requires lane.RxLane? || lane.TxLane?
    ensures Sel(Sel(p, BackLane), lane) == Sel(p, lane)
  {
    if p != [] {
      SelSel(p[1..], lane);
      if On(p[0], BackLane) { assert ([p[0]] + Sel(p[1..], BackLane))[1..] == Sel(p[1..], BackLane); }
    }
  }

  /** The command that leaves for the log of completed back pushes. */
  function Logged(w: World, ev: Event): seq<Cmd> {
    if ev.Complete? && FromBack(w.d.running) && !Polling(w.d) then [w.d.running] else []
  }

  lemma LogGrows(w: World, ev: Event)
    requires Shape(w) && Enabled(w, ev)
    ensures Step(w, ev).completed == w.completed + Logged(w, ev)
  {
    hide Send, SendTo, Recv, RecvFrom, EnqueueSetReg, EnqueueGetReg, TransferComplete, TimerCallback, InterruptCallback,
         HandleSpiFailure, AfterEvent, StaleRecv, Removed, TakeDatagram, Sir, ReplyOf, ChipsAfter, FromBack;
    assert w.completed + [] == w.completed;
  }

  /** Such a lane loses the completed command and gains what is pushed. */
  lemma LaneMoves(w: World, ev: Event, lane: Lane)
    requires lane.RxLane? || lane.TxLane?
    requires Inv(w) && Clean(w) && Enabled(w, ev) && Clean(Step(w, ev))
    ensures Wf(Step(w, ev).d)
    ensures Sel(Logged(w, ev), lane) + Sel(Pending(Step(w, ev).d), lane)
            == Sel(Pending(w.d), lane) + Sel(PushedBy(w, ev), lane)
  {
    hide Inv, Clean, Step, Enabled, Sel, Pending, PushedBy, Logged;
    InvIsShape(w);
    StepOrder(w, ev);
    LogGrows(w, ev);
    var x, p, p', cs := Logged(w, ev), Sel(Pending(w.d), BackLane), Sel(Pending(Step(w, ev).d), BackLane),
        PushedBy(w, ev);
    Regrouped(w.completed, x, p');
    Regrouped(w.completed, p, cs);
    SamePrefix(w.completed, x + p', p + cs);
    SelJoin(x, p', lane);
    SelJoin(p, cs, lane);
    SelSel(Pending(w.d), lane);
    SelSel(Pending(Step(w, ev).d), lane);
  }

  // ---- How much a fetch brings ---------------------------------------------------------------------------

  /** The batch that fetches everything the mirror shows: the transfer into the place that the
      allocator gives, with its three SPI bytes; the new read pointer; RECV, twice; and the look
      at what has come in meanwhile. */
  function Fetch(sk: Sock, s: SockNo): seq<Cmd> {
    var n := sk.reg.rxRsr;
    [ReadBuf(s, BufferIndex(sk.rxq, |sk.rxBuf|, ToU16(n + 3)), ToU16(n + 3)),
     WriteReg(s, Sn_RX_RD, SetU16(sk.reg.rxRd + n)), WriteReg(s, Sn_CR, [CR_RECV]), WriteReg(s, Sn_CR, [CR_RECV]),
     CheckRcv(s)]
  }

  lemma ReceivePlanFetches(sk: Sock, s: SockNo)
    ensures var (sk', cs) := ReceivePlan(sk, s);
            !sk.receiving && sk'.receiving ==> cs == Fetch(sk', s) && Sel(cs, RxLane(s)) == cs
  {
    hide Put, Header, BufferIndex, Sel, SetU16;
    ReceivePlanLanes(sk, s);
  }

  lemma SocPlanFetches(sk: Sock, s: SockNo)
    requires !sk.receiving && SocPlan(sk, s).0.receiving
    ensures Sel(SocPlan(sk, s).1, RxLane(s)) == Fetch(SocPlan(sk, s).0, s)
  {
    hide ReceivePlan, SendPlan, Sel, SetU16, BufferIndex, Ended;
    var (sk1, cs1) := if RECV in sk.reg.ir then ReceivePlan(sk, s) else (sk, []);
    var (sk2, cs2) := if Ended(sk.reg.ir) then SendPlan(PopSent(sk1), s) else (sk1, []);
    SendPlanStarts(PopSent(sk1), s);
    ReceivePlanFetches(sk, s);
    SendPlanLanes(PopSent(sk1), s);
    SelJoin(cs1, cs2, RxLane(s));
    NoneSelected(RxLane(s));
    assert cs1 + [] == cs1;
  }

  lemma NoneSelected(lane: Lane)
    ensures Sel([], lane) == []
  {
  }

  /** A fetch begins. */
  predicate FetchBegins(w: World, ev: Event, s: SockNo, sk': Sock)
    requires Shape(w)
  {
    sk'.receiving && (!w.d.socks[s].receiving || Finishes(w, ev, CheckRcv(s)))
  }

  lemma ReadFetches(w: World, s: SockNo)
    requires Inv(w) && InFlight(w.d) && w.d.dma == TxRx && (w.d.running == ReadSoc(s) || w.d.running == CheckRcv(s))
    requires Wf(ReadDone(w).d) && FetchBegins(w, Complete(true), s, ReadDone(w).d.socks[s])
    ensures Sel(PushedByRead(w), RxLane(s)) == Fetch(ReadDone(w).d.socks[s], s)
  {
    hide LInv, SchedInv, ServiceInv, HandleSoc, SocPlan, ReceivePlan, ReceivePending, Sel, Fetch;
    var sk := w.d.socks[s];
    if w.d.running == ReadSoc(s) {
      OneEndSeen(w, s);
      var d1 := SetSock(w.d, s, sk.(reg := ShownRegs(w.chips[s])));
      SocSocks(d1, s, s);
      SocPlanFetches(d1.socks[s], s);
    } else {
      var sk1 := sk.(reg := sk.reg.(rxRsr := RxRsr(w.chips[s]), rxRd := ToU16(w.chips[s].rxRd)), receiving := false);
      PendingSocks(w.d, s, sk1, true, s);
      ReceivePlanFetches(sk1, s);
    }
  }

  lemma CallFetches(d: Drv, sk1: Sock, ok: bool, s: SockNo)
    requires Wf(d) && !sk1.receiving
    ensures var sk' := ReceivePending(SetSock(d, s, sk1), s, ok).socks[s];
            sk'.receiving ==> Sel(ReceivePlan(sk1, s).1, RxLane(s)) == Fetch(sk', s)
  {
    hide ReceivePending, ReceivePlan, Sel, Fetch;
    PendingSocks(d, s, sk1, ok, s);
    ReceivePlanFetches(sk1, s);
  }

  lemma PushedFetch(w: World, ev: Event, s: SockNo)
    requires Inv(w) && Enabled(w, ev) && Wf(Step(w, ev).d) && FetchBegins(w, ev, s, Step(w, ev).d.socks[s])
    ensures Sel(PushedBy(w, ev), RxLane(s)) == Fetch(Step(w, ev).d.socks[s], s)
  {
    hide Inv, Send, SendTo, ReceivePending, ReceivePlan, RecvCopy, TakeDatagram, Removed, Fetchable, Sendable, Fetch,
         Sel, TransferComplete, PushedByRead, Landed, ReplyOf, ChipsAfter;
    InvIsShape(w);
    StartsExactlyWhen(w, ev, s);
    match ev {
      case TaskRecv(sn, len, ok) =>
        RecvCopyReg(w.d.socks[s], len);
        CallFetches(w.d, RecvCopy(w.d.socks[s], len).0, ok, s);
      case TaskRecvFrom(sn, len, ok) =>
        TakenReg(w.d.socks[s], len);
        CallFetches(w.d, TakeDatagram(w.d.socks[s], len).0, ok, s);
      case Complete(ok) => CompleteFetches(w, ok, s);
      case _ =>
    }
  }

  lemma CompleteFetches(w: World, ok: bool, s: SockNo)
    requires Inv(w) && Enabled(w, Complete(ok)) && Wf(Step(w, Complete(ok)).d)
    requires FetchBegins(w, Complete(ok), s, Step(w, Complete(ok)).d.socks[s])
    requires InFlight(w.d) && (w.d.running == ReadSoc(s) || w.d.running == CheckRcv(s))
    ensures Sel(PushedByRead(w), RxLane(s)) == Fetch(Step(w, Complete(ok)).d.socks[s], s)
  {
    hide Inv, Start, ReadDone, Sel, Fetch, TransferComplete, ReplyOf, ChipsAfter, PushedByRead;
    InvIsShape(w);
    InFlightHead(w);
    CompletionSplits(w, ok);
    ReadFetches(w, s);
  }

  lemma QuietLane(s: SockNo, l: Local)
    requires LInv(s, l) && !l.sk.receiving
    ensures l.rx == []
  {
    hide TxInv, CrInv, Awake, UdpAt, Taken, Layout, Header;
  }

  /** Which command, if any, leaves the receive lane when a fetch begins. */
  lemma LaneBefore(w: World, ev: Event, s: SockNo)
    requires Inv(w) && Enabled(w, ev) && (!w.d.socks[s].receiving || Finishes(w, ev, CheckRcv(s)))
    ensures Sel(Logged(w, ev), RxLane(s)) == Sel(Pending(w.d), RxLane(s))
  {
    hide LInv, ServiceInv, SchedInv, Pending, Heads;
    ViewOf(w, s);
    var l := LocalOf(w, s);
    if Finishes(w, ev, CheckRcv(s)) {
      CheckHeads(s, l);
      assert [CheckRcv(s)][1..] == [];
    } else {
      QuietLane(s, l);
      if ev.Complete? && InFlight(w.d) { OffLane(s, l, w.d.running); }
    }
  }

  lemma OffLane(s: SockNo, l: Local, c: Cmd)
    requires Heads(l, s, c) && l.rx == []
    ensures Sel([c], RxLane(s)) == []
  {
    assert [c][1..] == [];
  }

  /** A fetch that begins asks for everything the mirror shows, from the mirrored read pointer on,
      and its batch is all that the socket then has pending on its receive path. */
  lemma FetchesMirrored(w: World, ev: Event, s: SockNo)
    requires Inv(w) && Clean(w) && Enabled(w, ev) && Clean(Step(w, ev)) && Wf(Step(w, ev).d)
    requires FetchBegins(w, ev, s, Step(w, ev).d.socks[s])
    ensures Sel(Pending(Step(w, ev).d), RxLane(s)) == Fetch(Step(w, ev).d.socks[s], s)
  {
    hide Inv, Clean, Step, Enabled, Sel, Pending, PushedBy, Logged, Fetch;
    InvIsShape(w);
    PushedFetch(w, ev, s);
    LaneMoves(w, ev, RxLane(s));
    LaneBefore(w, ev, s);
    var x := Sel(Logged(w, ev), RxLane(s));
    SamePrefix(x, Sel(Pending(Step(w, ev).d), RxLane(s)), Sel(PushedBy(w, ev), RxLane(s)));
  }

  // ---- What is sent ----------------------------------------------------------------------------------------

  /** The batch that sends the oldest payload: on UDP the address and the port it was given; the
      transfer of its bytes; the new write pointer; SEND. */
  function Dispatch(sk: Sock, s: SockNo): seq<Cmd>
    requires Sendable(sk)
  {
    var g := sk.txq[0];
    (if sk.reg.mode == Udp then [WriteReg(s, Sn_DIPR, g.addr), WriteReg(s, Sn_DPORT, SetU16(g.port))] else [])
    + [WriteBuf(s, g.start, g.end - g.start),
       WriteReg(s, Sn_TX_WR, SetU16(sk.reg.txWr + (g.end - g.start) - 3)),
       WriteReg(s, Sn_CR, [CR_SEND])]
  }

  lemma SendPlanDispatches(sk: Sock, s: SockNo)
    ensures var (sk', cs) := SendPlan(sk, s);
            !sk.sending && sk'.sending ==> Sendable(sk') && cs == Dispatch(sk', s) && Sel(cs, TxLane(s)) == cs
  {
    hide Put, Header, Sel, SetU16;
    SendPlanLanes(sk, s);
  }

  lemma SocPlanDispatches(sk: Sock, s: SockNo)
    requires Ended(sk.reg.ir) && SocPlan(sk, s).0.sending
    ensures var (sk', cs) := SocPlan(sk, s); Sendable(sk') && Sel(cs, TxLane(s)) == Dispatch(sk', s)
  {
    hide ReceivePlan, SendPlan, Sel, Dispatch, Sendable, Ended;
    var (sk1, cs1) := if RECV in sk.reg.ir then ReceivePlan(sk, s) else (sk, []);
    var cs2 := SendPlan(PopSent(sk1), s).1;
    SendPlanDispatches(PopSent(sk1), s);
    ReceivePlanLanes(sk, s);
    SelJoin(cs1, cs2, TxLane(s));
    NoneSelected(TxLane(s));
    assert [] + cs2 == cs2;
  }

  /** Sending begins. */
  predicate SendBegins(w: World, ev: Event, s: SockNo, sk': Sock)
    requires Shape(w)
  {
    sk'.sending && (!w.d.socks[s].sending || EndsSending(w, ev, s))
  }

  lemma ReadDispatches(w: World, s: SockNo)
    requires Inv(w) && InFlight(w.d) && w.d.dma == TxRx
    requires (w.d.running == ReadSoc(s) && Ended(w.chips[s].ir)) || w.d.running == CheckTxFsr(s)
    requires Wf(ReadDone(w).d) && SendBegins(w, Complete(true), s, ReadDone(w).d.socks[s])
    ensures Sendable(ReadDone(w).d.socks[s])
    ensures Sel(PushedByRead(w), TxLane(s)) == Dispatch(ReadDone(w).d.socks[s], s)
  {
    hide LInv, SchedInv, ServiceInv, HandleSoc, SocPlan, SendPlan, SendPending, Sel, Dispatch, Sendable;
    var sk := w.d.socks[s];
    if w.d.running == ReadSoc(s) {
      OneEndSeen(w, s);
      var d1 := SetSock(w.d, s, sk.(reg := ShownRegs(w.chips[s])));
      SocSocks(d1, s, s);
      SocPlanDispatches(d1.socks[s], s);
    } else {
      var sk1 := sk.(reg := sk.reg.(txFsr := TxFsr(w.chips[s]), txWr := ToU16(w.chips[s].txWr)));
      PendingSocks(w.d, s, sk1, true, s);
      SendPlanDispatches(sk1, s);
    }
  }

  lemma CallDispatches(d: Drv, sk1: Sock, ok: bool, s: SockNo)
    requires Wf(d) && !sk1.sending
    ensures var sk' := SendPending(SetSock(d, s, sk1), s, ok).socks[s];
            sk'.sending ==> Sendable(sk') && Sel(SendPlan(sk1, s).1, TxLane(s)) == Dispatch(sk', s)
  {
    hide SendPending, SendPlan, Sel, Dispatch, Sendable;
    PendingSocks(d, s, sk1, ok, s);
    SendPlanDispatches(sk1, s);
  }

  lemma CompleteDispatches(w: World, ok: bool, s: SockNo)
    requires Inv(w) && Enabled(w, Complete(ok)) && Wf(Step(w, Complete(ok)).d) && InFlight(w.d)
    requires SendBegins(w, Complete(ok), s, Step(w, Complete(ok)).d.socks[s])
    requires (w.d.running == ReadSoc(s) && Ended(w.chips[s].ir)) || w.d.running == CheckTxFsr(s)
    ensures Sendable(Step(w, Complete(ok)).d.socks[s])
    ensures Sel(PushedByRead(w), TxLane(s)) == Dispatch(Step(w, Complete(ok)).d.socks[s], s)
  {
    hide Inv, Start, ReadDone, Sel, Dispatch, Sendable, TransferComplete, ReplyOf, ChipsAfter, PushedByRead, Ended;
    InvIsShape(w);
    InFlightHead(w);
    CompletionSplits(w, ok);
    ReadDispatches(w, s);
  }

  lemma PushedDispatch(w: World, ev: Event, s: SockNo)
    requires Inv(w) && Enabled(w, ev) && Wf(Step(w, ev).d) && SendBegins(w, ev, s, Step(w, ev).d.socks[s])
    ensures Sendable(Step(w, ev).d.socks[s])
    ensures Sel(PushedBy(w, ev), TxLane(s)) == Dispatch(Step(w, ev).d.socks[s], s)
  {
    hide Inv, Send, SendTo, Recv, RecvFrom, SendPending, SendPlan, Enqueue, Removed, Fetchable, Sendable, Dispatch, Sel,
         TransferComplete, PushedByRead, Landed, ReplyOf, ChipsAfter, Ended, Refused;
    InvIsShape(w);
    StartsExactlyWhen(w, ev, s);
    match ev {
      case TaskSend(sn, buf, ok) =>
        SendEffect(w.d, s, buf, ok);
        EnqueueSending(w.d.socks[s], buf, [], 0);
        CallDispatches(w.d, Enqueue(w.d.socks[s], buf, [], 0).0, ok, s);
      case TaskSendTo(sn, buf, addr, port, ok) =>
        SendToEffect(w.d, s, buf, addr, port, ok);
        EnqueueSending(w.d.socks[s], buf, addr, port);
        CallDispatches(w.d, Enqueue(w.d.socks[s], buf, addr, port).0, ok, s);
      case Complete(ok) => CompleteDispatches(w, ok, s);
      case _ =>
    }
  }

  lemma QuietSends(s: SockNo, l: Local)
    requires LInv(s, l) && !l.sk.sending
    ensures l.tx == []
  {
    hide RxInv, CrInv, Awake, Layout, Payload;
  }

  lemma EndedSends(s: SockNo, l: Local)
    requires LInv(s, l) && l.ack == {} && Ended(l.ch.ir)
    ensures l.tx == []
  {
    hide RxInv, CrInv, Awake, Layout, Payload, TxInv;
    EndSeen(s, l);
  }

  lemma NoSendBefore(w: World, ev: Event, s: SockNo)
    requires Inv(w) && Enabled(w, ev) && (!w.d.socks[s].sending || EndsSending(w, ev, s))
    ensures Sel(Logged(w, ev), TxLane(s)) == Sel(Pending(w.d), TxLane(s)) == []
  {
    hide LInv, ServiceInv, SchedInv, Pending, Heads, Ended;
    ViewOf(w, s);
    var l := LocalOf(w, s);
    if EndsSending(w, ev, s) {
      OneEndSeen(w, s);
      EndedSends(s, l);
    } else {
      QuietSends(s, l);
    }
    if ev.Complete? && InFlight(w.d) { OffSendLane(s, l, w.d.running); }
  }

  lemma OffSendLane(s: SockNo, l: Local, c: Cmd)
    requires Heads(l, s, c) && l.tx == []
    ensures Sel([c], TxLane(s)) == []
  {
    assert [c][1..] == [];
  }

  /** Sending that begins takes the oldest payload, and its batch is all that the socket then has
      pending on its send path. */
  lemma SendsOldest(w: World, ev: Event, s: SockNo)
    requires Inv(w) && Clean(w) && Enabled(w, ev) && Clean(Step(w, ev)) && Wf(Step(w, ev).d)
    requires SendBegins(w, ev, s, Step(w, ev).d.socks[s])
    ensures Sendable(Step(w, ev).d.socks[s])
    ensures Sel(Pending(Step(w, ev).d), TxLane(s)) == Dispatch(Step(w, ev).d.socks[s], s)
  {
    hide Inv, Clean, Step, Enabled, Sel, Pending, PushedBy, Logged, Dispatch, Sendable, Ended;
    InvIsShape(w);
    PushedDispatch(w, ev, s);
    LaneMoves(w, ev, TxLane(s));
    NoSendBefore(w, ev, s);
    SamePrefix([], Sel(Pending(Step(w, ev).d), TxLane(s)), Sel(PushedBy(w, ev), TxLane(s)));
  }
}
