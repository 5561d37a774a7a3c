/** Payloads that wait in the send queue: which events set a waiting queue going again, and for
    which sockets only a further call can. */
module Waiting {
  import opened Bytes
  import opened Spi
  import opened RingAlloc
  import opened DriverSpec
  import opened Chip
  import opened World
  import opened Lanes
  import opened LocalInv
  import opened Scheduling
  import opened Invariant
  import opened TaskSteps
  import opened Completion
  import opened ReadCompletion
  import opened Runs
  import opened Theorems
  import opened Order

  /** Payloads are queued and none is being sent. */
  predicate Waits(sk: Sock) {
    !sk.sending && sk.txq != []
  }

  /** Payloads are queued still, and the oldest is being sent now if and only if it starts. */
  predicate Decided(sk: Sock, starts: bool) {
    sk.txq != [] && (sk.sending <==> starts)
  }

  predicate Stalled(w: World, s: SockNo)
    requires Shape(w)
  {
    Waits(w.d.socks[s])
  }

  /** The oldest payload needs at most free bytes of the chip's memory. */
  predicate HeadFits(sk: Sock, free: u16)
    requires sk.txq != []
  {
    sk.txq[0].start + 3 <= sk.txq[0].end <= sk.txq[0].start + 3 + free
  }

  /** A send or sendto call on socket s gets past its checks and the oldest payload fits the
      mirrored free space. */
  predicate CallStarts(w: World, ev: Event, s: SockNo)
    requires Shape(w) && Enabled(w, ev)
  {
    && w.d.socks[s].txq != [] && HeadFits(w.d.socks[s], w.d.socks[s].reg.txFsr)
    && ((ev.TaskSend? && ev.sn == s && !Refused(Send(w.d, s, ev.buf, ev.ok).1))
        || (ev.TaskSendTo? && ev.sn == s && !Refused(SendTo(w.d, s, ev.buf, ev.addr, ev.port, ev.ok).1)))
  }

  /** A CHECK_TX_FSR of socket s finds it open and the oldest payload fits the chip's free
      space. */
  predicate CheckStarts(w: World, ev: Event, s: SockNo)
    requires Shape(w)
  {
    && w.d.socks[s].txq != [] && ev.Complete? && InFlight(w.d) && w.d.running == CheckTxFsr(s)
    && Open(w.d.socks[s].reg.sr) && HeadFits(w.d.socks[s], TxFsr(w.chips[s]))
  }

  // ---- The send side of a socket record ------------------------------------------------------------

  predicate SameQueue(sk: Sock, sk': Sock) {
    sk'.txq == sk.txq && sk'.sending == sk.sending
  }

  lemma PlanDecides(sk: Sock, sn: SockNo)
    requires Waits(sk)
    ensures Decided(SendPlan(sk, sn).0, Open(sk.reg.sr) && HeadFits(sk, sk.reg.txFsr))
  {
    hide Put, Header, SendBatch;
  }

  lemma ReceivePlanSame(sk: Sock, sn: SockNo)
    ensures SameQueue(sk, ReceivePlan(sk, sn).0)
  {
    hide Put, Header, RecvBatch, BufferIndex;
  }

  lemma EnqueueWaits(sk: Sock, buf: seq<byte>, addr: seq<byte>, port: u16)
    requires Waits(sk)
    ensures var sk' := Enqueue(sk, buf, addr, port).0;
            Waits(sk') && sk'.txq[0] == sk.txq[0] && sk'.reg == sk.reg && !Refused(Enqueue(sk, buf, addr, port).1)
  {
    hide Put, BufferIndex;
  }

  lemma {:induction false} CopySame(sk: Sock, room: nat)
    ensures SameQueue(sk, RecvCopy(sk, room).0)
    decreases |sk.rxq|
  {
    hide Take, DataLen;
    if room > 0 && sk.rxq != [] && DataLen(sk.rxq[0]) <= room {
      CopySame(sk.(rxq := sk.rxq[1..]), room - DataLen(sk.rxq[0]));
    }
  }

  lemma TakenSameQueue(sk: Sock, len: u16)
    ensures SameQueue(sk, TakeDatagram(sk, len).0)
  {
    hide Take, GetU16;
  }

  /** Pushing changes no socket record. */
  lemma PendingSocks(d: Drv, sn: SockNo, sk: Sock, ok: bool, s: SockNo)
    requires Wf(d)
    ensures SendPending(SetSock(d, sn, sk), sn, ok).socks[s] == if s == sn then SendPlan(sk, sn).0 else d.socks[s]
    ensures ReceivePending(SetSock(d, sn, sk), sn, ok).socks[s] == if s == sn then ReceivePlan(sk, sn).0 else d.socks[s]
  {
    hide SendPlan, ReceivePlan, PushAll;
  }

  // ---- Calls ---------------------------------------------------------------------------------------

  /** A refused call changes nothing; any other queues its payload, if it can, and tries to send. */
  lemma SendEffect(d: Drv, sn: nat, buf: seq<byte>, ok: bool)
    requires Wf(d) && |buf| < 65536
    ensures var r := Send(d, sn, buf, ok);
            if Refused(r.1) then r.0 == d
            else sn < SOCKETS && r.0 == SendPending(SetSock(d, sn, Enqueue(d.socks[sn], buf, [], 0).0), sn, ok)
  {
    hide SendPending, Enqueue, TooLarge;
    if sn < SOCKETS { EnqueueAnswers(d.socks[sn], buf, [], 0); }
  }

  lemma SendToEffect(d: Drv, sn: nat, buf: seq<byte>, addr: seq<byte>, port: u16, ok: bool)
    requires Wf(d) && |buf| < 65536
    ensures var r := SendTo(d, sn, buf, addr, port, ok);
            if Refused(r.1) then r.0 == d
            else sn < SOCKETS && r.0 == SendPending(SetSock(d, sn, Enqueue(d.socks[sn], buf, addr, port).0), sn, ok)
  {
    hide SendPending, Enqueue, TooLarge;
    if sn < SOCKETS { EnqueueAnswers(d.socks[sn], buf, addr, port); }
  }

  /** A call that gets past its checks starts the waiting queue exactly when its head fits. */
  lemma EnqueueDecides(d: Drv, sn: SockNo, buf: seq<byte>, addr: seq<byte>, port: u16, ok: bool, s: SockNo)
    requires Wf(d) && Waits(d.socks[s]) && (sn == s ==> Open(d.socks[s].reg.sr))
    ensures var d' := SendPending(SetSock(d, sn, Enqueue(d.socks[sn], buf, addr, port).0), sn, ok);
            Decided(d'.socks[s], sn == s && HeadFits(d.socks[s], d.socks[s].reg.txFsr))
  {
    hide SendPending, SendPlan, Enqueue, HeadFits;
    var sk1 := Enqueue(d.socks[sn], buf, addr, port).0;
    PendingSocks(d, sn, sk1, ok, s);
    if sn == s {
      EnqueueWaits(d.socks[s], buf, addr, port);
      PlanDecides(sk1, s);
      SameHead(d.socks[s], sk1);
    }
  }

  lemma AcceptedOpen(d: Drv, sn: SockNo, buf: seq<byte>, addr: seq<byte>, port: u16, ok: bool)
    requires Wf(d) && |buf| < 65536
    ensures !Refused(Send(d, sn, buf, ok).1) || !Refused(SendTo(d, sn, buf, addr, port, ok).1)
            ==> Open(d.socks[sn].reg.sr)
  {
    hide SendPending, Enqueue, TooLarge;
  }

  lemma SendDecides(w: World, ev: Event, s: SockNo)
    requires Shape(w) && Enabled(w, ev) && (ev.TaskSend? || ev.TaskSendTo?) && Stalled(w, s)
    ensures Wf(Step(w, ev).d) && Decided(Step(w, ev).d.socks[s], CallStarts(w, ev, s))
  {
    hide Send, SendTo, SendPending, Enqueue, HeadFits, Refused, Open;
    if ev.TaskSend? {
      SendEffect(w.d, ev.sn, ev.buf, ev.ok);
      if !Refused(Send(w.d, ev.sn, ev.buf, ev.ok).1) {
        AcceptedOpen(w.d, ev.sn, ev.buf, [], 0, ev.ok);
        EnqueueDecides(w.d, ev.sn, ev.buf, [], 0, ev.ok, s);
      }
    } else {
      SendToEffect(w.d, ev.sn, ev.buf, ev.addr, ev.port, ev.ok);
      if !Refused(SendTo(w.d, ev.sn, ev.buf, ev.addr, ev.port, ev.ok).1) {
        AcceptedOpen(w.d, ev.sn, ev.buf, ev.addr, ev.port, ev.ok);
        EnqueueDecides(w.d, ev.sn, ev.buf, ev.addr, ev.port, ev.ok, s);
      }
    }
  }

  lemma SameHead(sk: Sock, sk': Sock)
    requires sk.txq != [] && sk'.txq != [] && sk'.txq[0] == sk.txq[0]
    ensures forall free: u16 :: HeadFits(sk', free) <==> HeadFits(sk, free)
  {
  }

  lemma ReceiveCallSame(w: World, ev: Event, s: SockNo)
    requires Shape(w) && Enabled(w, ev) && (ev.TaskRecv? || ev.TaskRecvFrom?)
    ensures Wf(Step(w, ev).d) && SameQueue(w.d.socks[s], Step(w, ev).d.socks[s])
  {
    hide ReceivePending, ReceivePlan, RecvCopy, TakeDatagram, Removed;
    if ev.sn < SOCKETS {
      var sk := w.d.socks[ev.sn];
      var sk1 := if ev.TaskRecv? then RecvCopy(sk, ev.len).0 else TakeDatagram(sk, ev.len).0;
      PendingSocks(w.d, ev.sn, sk1, ev.ok, s);
      CopySame(sk, ev.len);
      TakenSameQueue(sk, ev.len);
      ReceivePlanSame(sk1, ev.sn);
    }
  }

  // ---- Completions ---------------------------------------------------------------------------------

  /** While a socket waits, no end of sending is signalled to it, so that READ_SOC does not act on
      its send queue. */
  lemma NoEndWhileWaiting(w: World, s: SockNo)
    requires Inv(w) && InFlight(w.d) && w.d.running == ReadSoc(s) && Stalled(w, s)
    ensures !Ended(w.chips[s].ir)
  {
    hide SchedInv, ServiceInv, RxInv, CrInv, Awake;
    OneEndSeen(w, s);
    QuietNoEnd(s, LocalOf(w, s));
  }

  lemma QuietNoEnd(s: SockNo, l: Local)
    requires LInv(s, l) && !l.sk.sending && l.ack == {}
    ensures !Ended(l.ch.ir)
  {
    hide RxInv, CrInv, Awake, Layout, Payload;
  }

  lemma SocSame(d: Drv, sn: SockNo, s: SockNo)
    requires Wf(d) && !Ended(d.socks[sn].reg.ir)
    ensures SameQueue(d.socks[s], HandleSoc(d, sn).socks[s])
  {
    hide ReceivePending, ReceivePlan, SendPending;
    SetSame(d, sn);
    PendingSocks(d, sn, d.socks[sn], true, s);
    ReceivePlanSame(d.socks[sn], sn);
  }

  lemma SetSame(d: Drv, sn: SockNo)
    requires Wf(d)
    ensures SetSock(d, sn, d.socks[sn]) == d
  {
  }

  lemma SocElsewhere(d: Drv, sn: SockNo, s: SockNo)
    requires Wf(d) && s != sn
    ensures HandleSoc(d, sn).socks[s] == d.socks[s]
  {
    hide ReceivePending, ReceivePlan, SendPending, SendPlan, PopSent;
    var ir := d.socks[sn].reg.ir;
    SetSame(d, sn);
    PendingSocks(d, sn, d.socks[sn], true, s);
    var d1 := if RECV in ir then ReceivePending(d, sn, true) else d;
    PendingSocks(d1, sn, PopSent(d1.socks[sn]), true, s);
    var d2 :=
      if TIMEOUT !in ir then d1
      else if d1.socks[sn].reg.mode == Tcp then SetSock(d1, sn, d1.socks[sn].(sending := false, txq := []))
      else SendPending(SetSock(d1, sn, PopSent(d1.socks[sn])), sn, true);
    PendingSocks(d2, sn, PopSent(d2.socks[sn]), true, s);
  }

  lemma ReadSocDecides(w: World, s: SockNo)
    requires Inv(w) && InFlight(w.d) && w.d.running.ReadSoc? && w.d.running.sn < SOCKETS && w.d.dma == TxRx
             && Stalled(w, s)
    ensures Wf(ReadDone(w).d) && SameQueue(w.d.socks[s], ReadDone(w).d.socks[s])
  {
    hide LInv, SchedInv, ServiceInv, HandleSoc;
    var sn := w.d.running.sn;
    var d1 := SetSock(w.d, sn, w.d.socks[sn].(reg := ShownRegs(w.chips[sn])));
    if sn == s {
      NoEndWhileWaiting(w, s);
      SocSame(d1, sn, s);
    } else {
      SocElsewhere(d1, sn, s);
    }
  }

  lemma CheckDecides(w: World, s: SockNo)
    requires Shape(w) && InFlight(w.d) && w.d.running.CheckTxFsr? && w.d.running.sn < SOCKETS && w.d.dma == TxRx
             && Stalled(w, s)
    ensures Wf(ReadDone(w).d) && Decided(ReadDone(w).d.socks[s], CheckStarts(w, Complete(true), s))
  {
    hide SendPending, SendPlan, HeadFits;
    var sn := w.d.running.sn;
    var sk := w.d.socks[sn];
    var sk1 := sk.(reg := sk.reg.(txFsr := TxFsr(w.chips[sn]), txWr := ToU16(w.chips[sn].txWr)));
    PendingSocks(w.d, sn, sk1, true, s);
    if sn == s {
      PlanDecides(sk1, s);
      SameHead(sk, sk1);
    }
  }

  lemma CheckRcvSame(w: World, s: SockNo)
    requires Shape(w) && InFlight(w.d) && w.d.running.CheckRcv? && w.d.running.sn < SOCKETS && w.d.dma == TxRx
    ensures Wf(ReadDone(w).d) && SameQueue(w.d.socks[s], ReadDone(w).d.socks[s])
  {
    hide ReceivePending, ReceivePlan;
    var sn := w.d.running.sn;
    var sk := w.d.socks[sn];
    var sk1 := sk.(reg := sk.reg.(rxRsr := RxRsr(w.chips[sn]), rxRd := ToU16(w.chips[sn].rxRd)), receiving := false);
    PendingSocks(w.d, sn, sk1, true, s);
    ReceivePlanSame(sk1, sn);
  }

  lemma PlainReadSame(w: World, s: SockNo)
    requires Shape(w) && InFlight(w.d) && w.d.dma == TxRx
    requires w.d.running.ReadReg? || w.d.running.ReadBuf? || w.d.running.ReadSir?
    ensures Wf(ReadDone(w).d) && SameQueue(w.d.socks[s], ReadDone(w).d.socks[s])
  {
    hide Put, Header, RingRead, PushSocs, Sir;
  }

  lemma LandedDecides(w: World, s: SockNo)
    requires Inv(w) && w.d.dma != NoDma && Stalled(w, s)
    ensures Wf(Landed(w).d) && Decided(Landed(w).d.socks[s], CheckStarts(w, Complete(true), s))
  {
    hide Inv, ReadDone, SchedInv, HeadFits;
    InvIsShape(w);
    if Polling(w.d) || w.d.dma == Tx {
      WrittenSocks(w);
    } else {
      InFlightDma(w);
      InFlightHead(w);
      match w.d.running {
        case ReadReg(sn, off, count, back) => PlainReadSame(w, s);
        case ReadBuf(sn, start, len) => PlainReadSame(w, s);
        case ReadSir(_) => PlainReadSame(w, s);
        case ReadSoc(sn) => ReadSocDecides(w, s);
        case CheckRcv(sn) => CheckRcvSame(w, s);
        case CheckTxFsr(sn) => CheckDecides(w, s);
        case _ =>
      }
    }
  }

  lemma WrittenSocks(w: World)
    requires Inv(w) && (Polling(w.d) || w.d.dma == Tx)
    ensures Landed(w).d.socks == w.d.socks && (InFlight(w.d) ==> !w.d.running.CheckTxFsr?)
    ensures Polling(w.d) ==> !InFlight(w.d)
  {
    hide LInv, ServiceInv, ChipsAfter;
    if InFlight(w.d) { InFlightHead(w); }
  }

  lemma CompleteDecides(w: World, ok: bool, s: SockNo)
    requires Inv(w) && w.d.dma != NoDma && Stalled(w, s)
    ensures Wf(Step(w, Complete(ok)).d)
    ensures Decided(Step(w, Complete(ok)).d.socks[s], CheckStarts(w, Complete(ok), s))
  {
    hide Inv, Start, Landed, SchedInv, HeadFits, TransferComplete, ReplyOf, ChipsAfter;
    InvIsShape(w);
    CompletionSplits(w, ok);
    LandedDecides(w, s);
  }

  // ---- Any event -----------------------------------------------------------------------------------

  predicate Starts(w: World, ev: Event, s: SockNo)
    requires Shape(w) && Enabled(w, ev)
  {
    CallStarts(w, ev, s) || CheckStarts(w, ev, s)
  }

  /** A waiting send queue goes on waiting unless a send call meets a mirror that shows room for
      its oldest payload, or a CHECK_TX_FSR finds room in the chip. */
  lemma WaitEndsOnlyBy(w: World, ev: Event, s: SockNo)
    requires Inv(w) && Enabled(w, ev) && Stalled(w, s)
    ensures Wf(Step(w, ev).d) && Decided(Step(w, ev).d.socks[s], Starts(w, ev, s))
  {
    hide Inv, Send, SendTo, Recv, RecvFrom, PushBack, TransferComplete, TimerCallback, InterruptCallback,
         HandleSpiFailure, AfterEvent, StaleRecv, Removed, TakeDatagram, HeadFits, Sir, Refused;
    InvIsShape(w);
    match ev {
      case TaskSend(sn, buf, ok) => SendDecides(w, ev, s);
      case TaskSendTo(sn, buf, addr, port, ok) => SendDecides(w, ev, s);
      case TaskRecv(sn, len, ok) => ReceiveCallSame(w, ev, s);
      case TaskRecvFrom(sn, len, ok) => ReceiveCallSame(w, ev, s);
      case Complete(ok) => CompleteDecides(w, ok, s);
      case AsyncFailure => FailureSocks(w.d);
      case _ =>
    }
  }

  lemma FailureSocks(d: Drv)
    requires Wf(d)
    ensures HandleSpiFailure(d).socks == d.socks
  {
  }

  // ---- Who asks for the free space -----------------------------------------------------------------

  lemma {:induction false} ChecksHave(d: Drv, i: nat, s: SockNo)
    requires Wf(d) && i <= SOCKETS
    ensures CheckTxFsr(s) in TxChecks(d, i) <==> i <= s && d.socks[s].reg.sr == Established
    decreases SOCKETS - i
  {
    if i < SOCKETS { ChecksHave(d, i + 1, s); }
  }

  lemma PlansHaveNone(sk: Sock, sn: SockNo, s: SockNo)
    ensures CheckTxFsr(s) !in SendPlan(sk, sn).1 && CheckTxFsr(s) !in ReceivePlan(sk, sn).1
  {
    hide Put, Header, BufferIndex;
  }

  lemma ReadsPushNone(w: World, s: SockNo)
    requires Shape(w)
    ensures CheckTxFsr(s) !in PushedByRead(w)
  {
    hide SendPlan, ReceivePlan;
    var cs := PushedByRead(w);
    if cs != [] {
      var sn, sk, ch := w.d.running.sn, w.d.socks[w.d.running.sn], w.chips[w.d.running.sn];
      var seen := sk.(reg := ShownRegs(ch));
      PlansHaveNone(seen, sn, s);
      PlansHaveNone(PopSent(if RECV in seen.reg.ir then ReceivePlan(seen, sn).0 else seen), sn, s);
      PlansHaveNone(sk.(reg := sk.reg.(rxRsr := RxRsr(ch), rxRd := ToU16(ch.rxRd)), receiving := false), sn, s);
      PlansHaveNone(sk.(reg := sk.reg.(txFsr := TxFsr(ch), txWr := ToU16(ch.txWr))), sn, s);
    }
  }

  /** Only a timer tick that finds a socket's mirrored status ESTABLISHED asks for its free
      space. */
  lemma ChecksComeFromTicks(w: World, ev: Event, s: SockNo)
    requires Shape(w) && Enabled(w, ev)
    ensures CheckTxFsr(s) in PushedBy(w, ev) <==> ev.Timer? && w.d.socks[s].reg.sr == Established
  {
    hide SendPlan, ReceivePlan, Send, SendTo, Enqueue, RecvCopy, TakeDatagram, PushedByRead, TxChecks, Refused;
    hide EnqueueSetReg, EnqueueGetReg;
    match ev {
      case TaskSend(sn, buf, ok) =>
        SendEffect(w.d, sn, buf, ok);
        if sn < SOCKETS { PlansHaveNone(Enqueue(w.d.socks[sn], buf, [], 0).0, sn, s); }
      case TaskSendTo(sn, buf, addr, port, ok) =>
        SendToEffect(w.d, sn, buf, addr, port, ok);
        if sn < SOCKETS { PlansHaveNone(Enqueue(w.d.socks[sn], buf, addr, port).0, sn, s); }
      case TaskRecv(sn, len, ok) => if sn < SOCKETS { PlansHaveNone(RecvCopy(w.d.socks[sn], len).0, sn, s); }
      case TaskRecvFrom(sn, len, ok) => if sn < SOCKETS { PlansHaveNone(TakeDatagram(w.d.socks[sn], len).0, sn, s); }
      case Complete(ok) => ReadsPushNone(w, s);
      case Timer(ok) => ChecksHave(w.d, 0, s);
      case _ =>
    }
  }

  lemma {:induction false} SelHas(p: seq<Cmd>, lane: Lane, c: Cmd)
    requires On(c, lane)
    ensures c in Sel(p, lane) <==> c in p
  {
    if p != [] { SelHas(p[1..], lane, c); }
  }

  /** On an ESTABLISHED socket every tick leaves a CHECK_TX_FSR pending. */
  lemma TickLeavesCheck(w: World, ok: bool, s: SockNo)
    requires Inv(w) && Clean(w) && Clean(Step(w, Timer(ok))) && w.d.socks[s].reg.sr == Established
    ensures CheckTxFsr(s) in Pending(Step(w, Timer(ok)).d)
  {
    hide Inv, Clean, TimerCallback, Pending, PushedBy;
    InvIsShape(w);
    OtherOnward(w, Timer(ok));
    ChecksComeFromTicks(w, Timer(ok), s);
    SelHas(Pending(Step(w, Timer(ok)).d), BackLane, CheckTxFsr(s));
  }

  /** What was appended to the log and not completed is pending. */
  lemma StillPending(before: seq<Cmd>, x: seq<Cmd>, after: seq<Cmd>, pushed: seq<Cmd>, c: Cmd)
    requires x + after == before + pushed && c in after
    ensures c in before || c in pushed
  {
    var k :| 0 <= k < |after| && after[k] == c;
    assert (before + pushed)[|x| + k] == c;
  }

  lemma CheckArrives(w: World, ev: Event, s: SockNo)
    requires Inv(w) && Clean(w) && Enabled(w, ev) && Clean(Step(w, ev)) && CheckTxFsr(s) in Pending(Step(w, ev).d)
    ensures CheckTxFsr(s) in Pending(w.d) || CheckTxFsr(s) in PushedBy(w, ev)
  {
    hide Inv, Clean, Pending, PushedBy, Sel, Step, Enabled;
    InvIsShape(w);
    StepOrder(w, ev);
    var c := CheckTxFsr(s);
    var before, after := Sel(Pending(w.d), BackLane), Sel(Pending(Step(w, ev).d), BackLane);
    SelHas(Pending(w.d), BackLane, c);
    SelHas(Pending(Step(w, ev).d), BackLane, c);
    CompletedGrows(w, ev);
    var x := Step(w, ev).completed[|w.completed|..];
    assert Step(w, ev).completed == w.completed + x;
    Regrouped(w.completed, x, after);
    Regrouped(w.completed, before, PushedBy(w, ev));
    SamePrefix(w.completed, x + after, before + PushedBy(w, ev));
    StillPending(before, x, after, PushedBy(w, ev), c);
  }

  lemma SamePrefix(a: seq<Cmd>, b: seq<Cmd>, c: seq<Cmd>)
    requires a + b == a + c
    ensures b == c
  {
    assert b == (a + b)[|a|..] && c == (a + c)[|a|..];
  }

  lemma CompletedGrows(w: World, ev: Event)
    requires Shape(w) && Enabled(w, ev)
    ensures w.completed <= Step(w, ev).completed
  {
    hide Send, SendTo, Recv, RecvFrom, EnqueueSetReg, EnqueueGetReg, TransferComplete, TimerCallback, InterruptCallback,
         HandleSpiFailure, AfterEvent, StaleRecv, Removed, TakeDatagram, Sir, ReplyOf, ChipsAfter;
  }

  // ---- Sockets that only a call can help -------------------------------------------------------------

  /** The socket is not ESTABLISHED, neither in the chip nor in the mirror, and no free-space
      check of it is left over: a UDP socket, or a TCP socket whose peer has closed its side. */
  predicate Unchecked(w: World, s: SockNo)
    requires Shape(w)
  {
    w.chips[s].sr != Established && w.d.socks[s].reg.sr != Established && CheckTxFsr(s) !in Pending(w.d)
  }

  /** A mirrored status is the old one or the chip's. */
  predicate StatusFrom(w: World, d': Drv, s: SockNo)
    requires Shape(w) && Wf(d')
  {
    d'.socks[s].reg.sr == w.d.socks[s].reg.sr || d'.socks[s].reg.sr == w.chips[s].sr
  }

  lemma PlansKeepRegs(sk: Sock, sn: SockNo)
    ensures SendPlan(sk, sn).0.reg == sk.reg && ReceivePlan(sk, sn).0.reg == sk.reg
  {
    hide Put, Header, BufferIndex, SendBatch, RecvBatch;
  }

  lemma EnqueueStatus(d: Drv, sn: SockNo, buf: seq<byte>, addr: seq<byte>, port: u16, ok: bool, s: SockNo)
    requires Wf(d)
    ensures SendPending(SetSock(d, sn, Enqueue(d.socks[sn], buf, addr, port).0), sn, ok).socks[s].reg == d.socks[s].reg
  {
    hide SendPending, SendPlan, Enqueue;
    var sk1 := Enqueue(d.socks[sn], buf, addr, port).0;
    EnqueueReg(d.socks[sn], buf, addr, port);
    PendingSocks(d, sn, sk1, ok, s);
    PlansKeepRegs(sk1, sn);
  }

  lemma SendCallStatus(w: World, ev: Event, s: SockNo)
    requires Shape(w) && Enabled(w, ev) && (ev.TaskSend? || ev.TaskSendTo?)
    ensures Wf(Step(w, ev).d) && Step(w, ev).d.socks[s].reg == w.d.socks[s].reg
  {
    hide Send, SendTo, SendPending, Enqueue, Refused;
    if ev.TaskSend? {
      SendEffect(w.d, ev.sn, ev.buf, ev.ok);
      if ev.sn < SOCKETS { EnqueueStatus(w.d, ev.sn, ev.buf, [], 0, ev.ok, s); }
    } else {
      SendToEffect(w.d, ev.sn, ev.buf, ev.addr, ev.port, ev.ok);
      if ev.sn < SOCKETS { EnqueueStatus(w.d, ev.sn, ev.buf, ev.addr, ev.port, ev.ok, s); }
    }
  }

  lemma ReceiveCallStatus(w: World, ev: Event, s: SockNo)
    requires Shape(w) && Enabled(w, ev) && (ev.TaskRecv? || ev.TaskRecvFrom?)
    ensures Wf(Step(w, ev).d) && Step(w, ev).d.socks[s].reg == w.d.socks[s].reg
  {
    hide ReceivePending, ReceivePlan, RecvCopy, TakeDatagram, Removed;
    if ev.sn < SOCKETS {
      var sk1 := if ev.TaskRecv? then RecvCopy(w.d.socks[ev.sn], ev.len).0
          else TakeDatagram(w.d.socks[ev.sn], ev.len).0;
      RecvCopyReg(w.d.socks[ev.sn], ev.len);
      TakenReg(w.d.socks[ev.sn], ev.len);
      PendingSocks(w.d, ev.sn, sk1, ev.ok, s);
      PlansKeepRegs(sk1, ev.sn);
    }
  }

  lemma SocStatus(d: Drv, sn: SockNo, s: SockNo)
    requires Wf(d)
    ensures HandleSoc(d, sn).socks[s].reg == d.socks[s].reg
  {
    hide ReceivePending, ReceivePlan, SendPending, SendPlan;
    var ir := d.socks[sn].reg.ir;
    SetSame(d, sn);
    PendingSocks(d, sn, d.socks[sn], true, s);
    PlansKeepRegs(d.socks[sn], sn);
    var d1 := if RECV in ir then ReceivePending(d, sn, true) else d;
    PendingSocks(d1, sn, PopSent(d1.socks[sn]), true, s);
    PlansKeepRegs(PopSent(d1.socks[sn]), sn);
    var d2 :=
      if TIMEOUT !in ir then d1
      else if d1.socks[sn].reg.mode == Tcp then SetSock(d1, sn, d1.socks[sn].(sending := false, txq := []))
      else SendPending(SetSock(d1, sn, PopSent(d1.socks[sn])), sn, true);
    PendingSocks(d2, sn, PopSent(d2.socks[sn]), true, s);
    PlansKeepRegs(PopSent(d2.socks[sn]), sn);
  }

  lemma ReadStatus(w: World, s: SockNo)
    requires Shape(w)
    ensures Wf(DmaRxComplete(w.d, ReplyOf(w))) && StatusFrom(w, DmaRxComplete(w.d, ReplyOf(w)), s)
  {
    hide HandleSoc, SendPending, ReceivePending, SendPlan, ReceivePlan, PushSocs, Put, RingRead, Header, Sir;
    var c := w.d.running;
    match c {
      case ReadSoc(sn) =>
        if sn < SOCKETS && !Polling(w.d) {
          SocStatus(SetSock(w.d, sn, w.d.socks[sn].(reg := ShownRegs(w.chips[sn]))), sn, s);
        }
      case CheckRcv(sn) =>
        if sn < SOCKETS && !Polling(w.d) {
          var sk := w.d.socks[sn];
          var sk1 := sk.(reg := sk.reg.(rxRsr := RxRsr(w.chips[sn]), rxRd := ToU16(w.chips[sn].rxRd)),
                         receiving := false);
          PendingSocks(w.d, sn, sk1, true, s);
          PlansKeepRegs(sk1, sn);
        }
      case CheckTxFsr(sn) =>
        if sn < SOCKETS && !Polling(w.d) {
          var sk := w.d.socks[sn];
          var sk1 := sk.(reg := sk.reg.(txFsr := TxFsr(w.chips[sn]), txWr := ToU16(w.chips[sn].txWr)));
          PendingSocks(w.d, sn, sk1, true, s);
          PlansKeepRegs(sk1, sn);
        }
      case _ =>
    }
  }

  lemma StepStatus(w: World, ev: Event, s: SockNo)
    requires Shape(w) && Enabled(w, ev)
    ensures Wf(Step(w, ev).d) && StatusFrom(w, Step(w, ev).d, s)
  {
    hide Send, SendTo, Recv, RecvFrom, PushBack, DmaRxComplete, Start, TimerCallback, InterruptCallback,
         HandleSpiFailure, AfterEvent, StaleRecv, Removed, TakeDatagram, Sir, ReplyOf, ChipsAfter;
    match ev {
      case TaskSend(sn, buf, ok) => SendCallStatus(w, ev, s);
      case TaskSendTo(sn, buf, addr, port, ok) => SendCallStatus(w, ev, s);
      case TaskRecv(sn, len, ok) => ReceiveCallStatus(w, ev, s);
      case TaskRecvFrom(sn, len, ok) => ReceiveCallStatus(w, ev, s);
      case Complete(ok) => ReadStatus(w, s);
      case AsyncFailure => FailureSocks(w.d);
      case _ =>
    }
  }

  /** The chip leaves ESTABLISHED for good. */
  lemma NeverEstablishedAgain(w: World, ev: Event, s: SockNo)
    requires Shape(w) && Enabled(w, ev) && w.chips[s].sr != Established
    ensures |Step(w, ev).chips| == SOCKETS && Step(w, ev).chips[s].sr != Established
  {
    hide Send, SendTo, Recv, RecvFrom, EnqueueSetReg, EnqueueGetReg, TransferComplete, TimerCallback, InterruptCallback,
         HandleSpiFailure, StaleRecv, Removed, TakeDatagram, Sir, ReplyOf, RingWrite, RingRead;
  }

  lemma StaysUnchecked(w: World, ev: Event, s: SockNo)
    requires Inv(w) && Clean(w) && Enabled(w, ev) && Clean(Step(w, ev)) && Unchecked(w, s)
    ensures Shape(Step(w, ev)) && Unchecked(Step(w, ev), s)
  {
    hide Inv, Clean, Step, Enabled, Pending, PushedBy;
    InvIsShape(w);
    StepKeeps(w, ev);
    InvIsShape(Step(w, ev));
    StepStatus(w, ev, s);
    NeverEstablishedAgain(w, ev, s);
    if CheckTxFsr(s) in Pending(Step(w, ev).d) {
      CheckArrives(w, ev, s);
      ChecksComeFromTicks(w, ev, s);
    }
  }

  /** A pending free-space check starts nothing on an unchecked socket, as there is none. */
  lemma OnlyCallsStart(w: World, ev: Event, s: SockNo)
    requires Inv(w) && Enabled(w, ev) && Unchecked(w, s)
    ensures Shape(w) && (Starts(w, ev, s) <==> CallStarts(w, ev, s))
  {
    hide Inv, CallStarts, HeadFits, Enabled;
    InvIsShape(w);
    if InFlight(w.d) { RunningPends(w); }
  }

  lemma RunningPends(w: World)
    requires Inv(w) && InFlight(w.d)
    ensures w.d.running in Pending(w.d)
  {
    hide Inv;
    InFlightHead(w);
    assert Pending(w.d)[0] == w.d.running;
  }

  ghost predicate CalledAt(states: seq<World>, events: seq<Event>, k: nat, s: SockNo) {
    k < |events| && k + 1 < |states| && OneStep(states[k], events[k], states[k + 1])
        && CallStarts(states[k], events[k], s)
  }

  ghost predicate StalledAt(states: seq<World>, k: nat, s: SockNo) {
    k < |states| && Shape(states[k]) && Stalled(states[k], s)
  }

  lemma OnceUnchecked(w: World, ev: Event, s: SockNo)
    requires Inv(w) && Clean(w) && Enabled(w, ev) && Clean(Step(w, ev)) && Unchecked(w, s) && Stalled(w, s)
    ensures Shape(Step(w, ev)) && Unchecked(Step(w, ev), s) && (Stalled(Step(w, ev), s) <==> !CallStarts(w, ev, s))
  {
    hide Inv, Clean, Step, Enabled, Unchecked, CallStarts, CheckStarts;
    InvIsShape(w);
    StaysUnchecked(w, ev, s);
    OnlyCallsStart(w, ev, s);
    WaitEndsOnlyBy(w, ev, s);
  }

  lemma WaitStep(states: seq<World>, events: seq<Event>, j: nat, s: SockNo)
    requires Reached(states, events, j) && j > 0 && StalledAt(states, j - 1, s) && Unchecked(states[j - 1], s)
    ensures j < |states| && Shape(states[j]) && Unchecked(states[j], s)
    ensures StalledAt(states, j, s) <==> !CalledAt(states, events, j - 1, s)
  {
    hide Clean, Init, Step, Enabled, Inv, Unchecked, Stalled, CallStarts;
    EarlierReached(states, events, j);
    ReachedInv(states, events, j - 1, s);
    ReachedInv(states, events, j, s);
    OnceUnchecked(states[j - 1], events[j - 1], s);
    assert OneStep(states[j - 1], events[j - 1], states[j - 1 + 1]);
  }

  /** Over runs: payloads that wait on such a socket wait on, whatever becomes free in the chip and
      however often the timer ticks, if and only if no further send call on the socket finds room
      for the oldest of them in the mirror. */
  lemma {:induction false} WaitsForCall(states: seq<World>, events: seq<Event>, i: nat, j: nat, s: SockNo)
    requires Reached(states, events, j) && i <= j && StalledAt(states, i, s) && Unchecked(states[i], s)
    ensures (forall k :: i <= k <= j ==> StalledAt(states, k, s))
            <==> (forall k :: i <= k < j ==> !CalledAt(states, events, k, s))
    ensures (forall k :: i <= k < j ==> !CalledAt(states, events, k, s))
            ==> StalledAt(states, j, s) && Unchecked(states[j], s)
    decreases j - i
  {
    hide Unchecked, CalledAt, StalledAt, Reached, CleanStep;
    if i < j {
      EarlierReached(states, events, j);
      WaitsForCall(states, events, i, j - 1, s);
      if forall k :: i <= k < j - 1 ==> !CalledAt(states, events, k, s) {
        WaitStep(states, events, j, s);
        assert StalledAt(states, j - 1, s);
      }
      assert (forall k :: i <= k <= j ==> StalledAt(states, k, s))
             <==> (forall k :: i <= k <= j - 1 ==> StalledAt(states, k, s)) && StalledAt(states, j, s);
    }
  }

  /** A UDP socket is such a socket in every reached state. */
  lemma {:induction false} UdpUnchecked(states: seq<World>, events: seq<Event>, i: nat, s: SockNo)
    requires Reached(states, events, i) && Shape(states[i]) && states[i].chips[s].mode == Udp
    ensures Unchecked(states[i], s)
  {
    hide Clean, Init, Step, Enabled, Inv, Unchecked;
    ReachedInv(states, events, i, s);
    if i == 0 {
      StartUnchecked(states[0], s);
    } else {
      EarlierReached(states, events, i);
      ReachedInv(states, events, i - 1, s);
      SameMode(states[i - 1], events[i - 1], s);
      UdpUnchecked(states, events, i - 1, s);
      StaysUnchecked(states[i - 1], events[i - 1], s);
    }
  }

  lemma StartUnchecked(w: World, s: SockNo)
    requires Init(w) && Shape(w) && w.chips[s].mode == Udp
    ensures Unchecked(w, s)
  {
    assert Opened(w.d.socks[s], w.chips[s], w.hist[s]);
  }

  lemma SameMode(w: World, ev: Event, s: SockNo)
    requires Shape(w) && Enabled(w, ev)
    ensures |Step(w, ev).chips| == SOCKETS && Step(w, ev).chips[s].mode == w.chips[s].mode
  {
    hide Send, SendTo, Recv, RecvFrom, EnqueueSetReg, EnqueueGetReg, TransferComplete, TimerCallback, InterruptCallback,
         HandleSpiFailure, StaleRecv, Removed, TakeDatagram, Sir, ReplyOf, RingWrite, RingRead;
  }
}
