/** The marks of trouble never go away: a lost enqueue, a placement in an exactly full ring,
    an asynchronous error during a command-register poll. */
module Growth {
  import opened Bytes
  import opened Spi
  import opened RingAlloc
  import opened DriverSpec
  import opened Chip
  import opened World
  import opened Scheduling

  ghost predicate Grows(d: Drv, d': Drv)
    requires Wf(d) && Wf(d')
  {
    d.fails <= d'.fails && forall s :: 0 <= s < SOCKETS && d.socks[s].clash ==> d'.socks[s].clash
  }

  lemma StartGrows(d: Drv, ok: bool)
    requires Wf(d)
    ensures Grows(d, Start(d, ok))
  {
  }

  lemma PushBackGrows(d: Drv, c: Cmd, ok: bool)
    requires Wf(d)
    ensures Grows(d, PushBack(d, c, ok))
  {
    PushBackFails(d, c, ok);
  }

  lemma PushFrontGrows(d: Drv, c: Cmd, ok: bool)
    requires Wf(d)
    ensures Grows(d, PushFront(d, c, ok))
  {
  }

  lemma {:induction false} PushAllSocks(d: Drv, cs: seq<Cmd>, ok: bool)
    requires Wf(d)
    ensures Grows(d, PushAll(d, cs, ok))
    decreases |cs|
  {
    FailsGrow(d, cs, ok);
  }

  lemma SockGrows(d: Drv, sn: SockNo, sk: Sock)
    requires Wf(d) && (d.socks[sn].clash ==> sk.clash)
    ensures Grows(d, SetSock(d, sn, sk))
  {
  }

  lemma SendPendingGrows(d: Drv, sn: SockNo, ok: bool)
    requires Wf(d)
    ensures Grows(d, SendPending(d, sn, ok))
  {
    hide SendBatch, Put, Header;
    var (sk, cs) := SendPlan(d.socks[sn], sn);
    SockGrows(d, sn, sk);
    PushAllSocks(d.(socks := d.socks[sn := sk]), cs, ok);
  }

  lemma ReceivePendingGrows(d: Drv, sn: SockNo, ok: bool)
    requires Wf(d)
    ensures Grows(d, ReceivePending(d, sn, ok))
  {
    hide RecvBatch, Put, Header, BufferIndex;
    var (sk, cs) := ReceivePlan(d.socks[sn], sn);
    SockGrows(d, sn, sk);
    PushAllSocks(d.(socks := d.socks[sn := sk]), cs, ok);
  }

  lemma QueueFrontGrows(d: Drv, c: Cmd)
    requires Wf(d)
    ensures Grows(d, QueueFront(d, c))
  {
  }

  lemma {:induction false} PushSocsGrows(d: Drv, flagged: set<nat>, i: nat)
    requires Wf(d) && i <= SOCKETS
    ensures Grows(d, PushSocs(d, flagged, i))
    decreases SOCKETS - i
  {
    if i < SOCKETS {
      QueueFrontGrows(d, ReadSoc(i));
      PushSocsGrows(if i in flagged then QueueFront(d, ReadSoc(i)) else d, flagged, i + 1);
    }
  }

  lemma SentGrows(d: Drv, sn: SockNo)
    requires Wf(d)
    ensures Grows(d, SendPending(SetSock(d, sn, PopSent(d.socks[sn])), sn, true))
  {
    hide SendPending;
    SockGrows(d, sn, PopSent(d.socks[sn]));
    SendPendingGrows(SetSock(d, sn, PopSent(d.socks[sn])), sn, true);
  }

  lemma HandleSocGrows(d: Drv, sn: SockNo)
    requires Wf(d)
    ensures Grows(d, HandleSoc(d, sn))
  {
    hide SendPending, ReceivePending, PopSent, QueueFront;
    var ir := d.socks[sn].reg.ir;
    ReceivePendingGrows(d, sn, true);
    var d1 := if RECV in ir then ReceivePending(d, sn, true) else d;
    SentGrows(d1, sn);
    SockGrows(d1, sn, d1.socks[sn].(sending := false, txq := []));
    var d2 :=
      if TIMEOUT !in ir then d1
      else if d1.socks[sn].reg.mode == Tcp then SetSock(d1, sn, d1.socks[sn].(sending := false, txq := []))
      else SendPending(SetSock(d1, sn, PopSent(d1.socks[sn])), sn, true);
    SentGrows(d2, sn);
    var d3 := if SENDOK !in ir then d2 else SendPending(SetSock(d2, sn, PopSent(d2.socks[sn])), sn, true);
    QueueFrontGrows(d3, ClearIr(sn, ir));
  }

  lemma RxCompleteGrows(d: Drv, r: Reply)
    requires Wf(d)
    ensures Grows(d, DmaRxComplete(d, r))
  {
    hide HandleSoc, SendPending, ReceivePending, PushSocs, Put;
    match d.running {
      case ReadSir(_) => if r.SirBits? { PushSocsGrows(d, r.sockets, 0); }
      case ReadSoc(sn) =>
        if sn < SOCKETS && r.SocRegs? {
          var d1 := SetSock(d, sn, d.socks[sn].(reg := r.regs));
          HandleSocGrows(d1, sn);
        }
      case CheckRcv(sn) =>
        if sn < SOCKETS && r.RcvRegs? {
          var reg := d.socks[sn].reg.(rxRsr := r.rsr, rxRd := r.rd);
          ReceivePendingGrows(SetSock(d, sn, d.socks[sn].(reg := reg, receiving := false)), sn, true);
        }
      case CheckTxFsr(sn) =>
        if sn < SOCKETS && r.TxRegs? {
          var reg := d.socks[sn].reg.(txFsr := r.fsr, txWr := r.wr);
          SendPendingGrows(SetSock(d, sn, d.socks[sn].(reg := reg)), sn, true);
        }
      case _ =>
    }
  }

  lemma {:induction false} TxChecksGrow(d: Drv, sn: nat, ok: bool)
    requires Wf(d) && sn <= SOCKETS
    ensures Grows(d, PushTxChecks(d, sn, ok))
    decreases SOCKETS - sn
  {
    hide PushBack;
    if sn < SOCKETS {
      PushBackGrows(d, CheckTxFsr(sn), ok);
      TxChecksGrow(if d.socks[sn].reg.sr == Established then PushBack(d, CheckTxFsr(sn), ok) else d, sn + 1, ok);
    }
  }

  lemma EnqueueGrows(d: Drv, sn: SockNo, buf: seq<byte>, addr: seq<byte>, port: u16, ok: bool)
    requires Wf(d)
    ensures var sk := Enqueue(d.socks[sn], buf, addr, port).0; Grows(d, SendPending(SetSock(d, sn, sk), sn, ok))
  {
    hide SendPending, BufferIndex, Put;
    var sk := Enqueue(d.socks[sn], buf, addr, port).0;
    SockGrows(d, sn, sk);
    SendPendingGrows(SetSock(d, sn, sk), sn, ok);
  }

  lemma {:induction false} RecvCopyClash(sk: Sock, room: nat)
    ensures RecvCopy(sk, room).0.clash == sk.clash
    decreases |sk.rxq|
  {
    hide Take, DataLen;
    if room > 0 && sk.rxq != [] && DataLen(sk.rxq[0]) <= room {
      RecvCopyClash(sk.(rxq := sk.rxq[1..]), room - DataLen(sk.rxq[0]));
    }
  }

  lemma SendCallGrows(w: World, ev: Event)
    requires Shape(w) && Enabled(w, ev) && (ev.TaskSend? || ev.TaskSendTo?)
    ensures Wf(Step(w, ev).d) && Grows(w.d, Step(w, ev).d)
  {
    hide SendPending, Enqueue, TooLarge, Grows;
    GrowsSame(w.d);
    if ev.sn < SOCKETS {
      if ev.TaskSend? {
        EnqueueGrows(w.d, ev.sn, ev.buf, [], 0, ev.ok);
      } else {
        EnqueueGrows(w.d, ev.sn, ev.buf, ev.addr, ev.port, ev.ok);
      }
    }
  }

  lemma GrowsSame(d: Drv)
    requires Wf(d)
    ensures Grows(d, d)
  {
  }

  lemma GrowsTwice(a: Drv, b: Drv, c: Drv)
    requires Wf(a) && Wf(b) && Wf(c) && Grows(a, b) && Grows(b, c)
    ensures Grows(a, c)
  {
  }

  lemma ReceiveCallGrows(w: World, ev: Event)
    requires Shape(w) && Enabled(w, ev) && (ev.TaskRecv? || ev.TaskRecvFrom?)
    ensures Wf(Step(w, ev).d) && Grows(w.d, Step(w, ev).d)
  {
    hide ReceivePending, RecvCopy, TakeDatagram, Removed, Grows;
    GrowsSame(w.d);
    if ev.sn < SOCKETS {
      var sk := if ev.TaskRecv? then RecvCopy(w.d.socks[ev.sn], ev.len).0 else TakeDatagram(w.d.socks[ev.sn], ev.len).0;
      RecvCopyClash(w.d.socks[ev.sn], ev.len);
      TakenClash(w.d.socks[ev.sn], ev.len);
      SockGrows(w.d, ev.sn, sk);
      ReceivePendingGrows(SetSock(w.d, ev.sn, sk), ev.sn, ev.ok);
      GrowsTwice(w.d, SetSock(w.d, ev.sn, sk), ReceivePending(SetSock(w.d, ev.sn, sk), ev.sn, ev.ok));
    }
  }

  lemma TaskGrows(w: World, ev: Event)
    requires Shape(w) && Enabled(w, ev)
    requires ev.TaskSend? || ev.TaskSendTo? || ev.TaskRecv? || ev.TaskRecvFrom? || ev.TaskSetReg? || ev.TaskGetReg?
    ensures Wf(Step(w, ev).d) && Grows(w.d, Step(w, ev).d)
  {
    hide Send, SendTo, Recv, RecvFrom, PushBack, TakeDatagram, Removed, Grows;
    GrowsSame(w.d);
    match ev {
      case TaskSend(sn, buf, ok) => SendCallGrows(w, ev);
      case TaskSendTo(sn, buf, addr, port, ok) => SendCallGrows(w, ev);
      case TaskRecv(sn, len, ok) => ReceiveCallGrows(w, ev);
      case TaskRecvFrom(sn, len, ok) => ReceiveCallGrows(w, ev);
      case TaskSetReg(sn, off, data, ok) => PushBackGrows(w.d, WriteReg(sn, off, data), ok);
      case TaskGetReg(sn, off, count, ok) => PushBackGrows(w.d, ReadReg(sn, off, count, true), ok);
      case _ =>
    }
  }

  lemma TakenClash(sk: Sock, len: u16)
    ensures TakeDatagram(sk, len).0.clash == sk.clash
  {
  }

  lemma OtherGrows(w: World, ev: Event)
    requires Shape(w) && Enabled(w, ev)
    requires ev.Complete? || ev.AsyncFailure? || ev.Timer? || ev.ChipStep?
    ensures Wf(Step(w, ev).d) && Grows(w.d, Step(w, ev).d)
  {
    hide DmaRxComplete, Start, PushBack, PushFront, PushTxChecks, ReplyOf, ChipsAfter, AfterEvent, StaleRecv;
    match ev {
      case Complete(ok) =>
        var r := ReplyOf(w);
        RxCompleteGrows(w.d, r);
        StartGrows(if w.d.dma == TxRx then DmaRxComplete(w.d, r) else w.d, ok);
      case AsyncFailure =>
      case Timer(ok) =>
        StartGrows(w.d, ok);
        var d1 := if w.d.running.Idle? && w.d.queue != [] then Start(w.d, ok) else w.d;
        TxChecksGrow(d1, 0, ok);
        PushBackGrows(PushTxChecks(d1, 0, ok), ReadSir(true), ok);
      case ChipStep(sn, e, seen, ok) => PushFrontGrows(w.d, ReadSir(false), ok);
      case _ =>
    }
  }

  lemma {:induction false} StepGrows(w: World, ev: Event)
    requires Shape(w) && Enabled(w, ev)
    ensures Wf(Step(w, ev).d) && Grows(w.d, Step(w, ev).d) && (w.pollFailed ==> Step(w, ev).pollFailed)
  {
    hide Send, SendTo, Recv, RecvFrom, EnqueueSetReg, EnqueueGetReg, TransferComplete, TimerCallback, InterruptCallback,
         HandleSpiFailure, ReplyOf, ChipsAfter, AfterEvent, Grows, StaleRecv, Removed, TakeDatagram;
    if ev.Complete? || ev.AsyncFailure? || ev.Timer? || ev.ChipStep? { OtherGrows(w, ev); } else { TaskGrows(w, ev); }
  }
}
