/** One transfer at a time and no idling: what holds of the scheduler in every run, whether or
    not anything has gone wrong. */
module Work {
  import opened Spi
  import opened RingAlloc
  import opened DriverSpec
  import opened Chip
  import opened World
  import opened Runs

  ghost predicate NoIdle(q: seq<Cmd>) {
    forall i :: 0 <= i < |q| ==> !q[i].Idle?
  }

  /** A transfer is in flight exactly while a command is running. */
  ghost predicate Tidy(d: Drv) {
    Wf(d) && (d.running.Idle? <==> d.dma == NoDma) && NoIdle(d.queue)
  }

  /** Commands wait only behind a transfer in flight. */
  predicate Busy(d: Drv) {
    d.running.Idle? ==> d.queue == []
  }

  /** A routine keeps the scheduler tidy and, when the HAL accepts its transfer, busy. */
  ghost predicate Works(d: Drv, d': Drv, ok: bool) {
    Tidy(d) ==> Tidy(d') && (ok && Busy(d) ==> Busy(d'))
  }

  lemma StartWorks(d: Drv, ok: bool)
    requires Wf(d) && NoIdle(d.queue)
    ensures Tidy(Start(d, ok)) && (ok ==> Busy(Start(d, ok)))
  {
  }

  lemma PushBackWorks(d: Drv, c: Cmd, ok: bool)
    requires Wf(d) && !c.Idle?
    ensures Works(d, PushBack(d, c, ok), ok)
  {
    hide Start;
    if Tidy(d) && |d.queue| < COMMAND_QUEUE_SIZE { StartWorks(d.(queue := d.queue + [c]), ok); }
  }

  lemma PushFrontWorks(d: Drv, c: Cmd, ok: bool)
    requires Wf(d) && !c.Idle?
    ensures Works(d, PushFront(d, c, ok), ok)
  {
    hide Start;
    if Tidy(d) && |d.queue| < COMMAND_QUEUE_SIZE { StartWorks(d.(queue := [c] + d.queue), ok); }
  }

  lemma {:induction false} PushAllWorks(d: Drv, cs: seq<Cmd>, ok: bool)
    requires Wf(d) && NoIdle(cs)
    ensures Works(d, PushAll(d, cs, ok), ok)
    decreases |cs|
  {
    hide PushBack;
    if cs != [] {
      PushBackWorks(d, cs[0], ok);
      PushAllWorks(PushBack(d, cs[0], ok), cs[1..], ok);
    }
  }

  /** A change of one socket record, then sendPendingData. */
  lemma SendWorks(d: Drv, sn: SockNo, sk: Sock, ok: bool)
    requires Wf(d)
    ensures Works(d, SendPending(SetSock(d, sn, sk), sn, ok), ok)
  {
    hide PushAll, Put, Header;
    var (sk1, cs) := SendPlan(sk, sn);
    assert NoIdle(cs);
    PushAllWorks(SetSock(d, sn, sk).(socks := SetSock(d, sn, sk).socks[sn := sk1]), cs, ok);
  }

  lemma ReceiveWorks(d: Drv, sn: SockNo, sk: Sock, ok: bool)
    requires Wf(d)
    ensures Works(d, ReceivePending(SetSock(d, sn, sk), sn, ok), ok)
  {
    hide PushAll, Put, Header, BufferIndex;
    var (sk1, cs) := ReceivePlan(sk, sn);
    assert NoIdle(cs);
    PushAllWorks(SetSock(d, sn, sk).(socks := SetSock(d, sn, sk).socks[sn := sk1]), cs, ok);
  }

  lemma {:induction false} PushSocsWorks(d: Drv, flagged: set<nat>, i: nat)
    requires Wf(d) && i <= SOCKETS
    ensures NoIdle(d.queue) ==> NoIdle(PushSocs(d, flagged, i).queue)
    decreases SOCKETS - i
  {
    if i < SOCKETS { PushSocsWorks(if i in flagged then QueueFront(d, ReadSoc(i)) else d, flagged, i + 1); }
  }

  lemma SameSock(d: Drv, sn: SockNo)
    requires Wf(d)
    ensures SetSock(d, sn, d.socks[sn]) == d
  {
  }

  lemma HandleSocWorks(d: Drv, sn: SockNo)
    requires Wf(d) && Tidy(d)
    ensures Tidy(HandleSoc(d, sn))
  {
    hide SendPending, ReceivePending, PopSent;
    var ir := d.socks[sn].reg.ir;
    SameSock(d, sn);
    ReceiveWorks(d, sn, d.socks[sn], true);
    var d1 := if RECV in ir then ReceivePending(d, sn, true) else d;
    SendWorks(d1, sn, PopSent(d1.socks[sn]), true);
    var d2 :=
      if TIMEOUT !in ir then d1
      else if d1.socks[sn].reg.mode == Tcp then SetSock(d1, sn, d1.socks[sn].(sending := false, txq := []))
      else SendPending(SetSock(d1, sn, PopSent(d1.socks[sn])), sn, true);
    SendWorks(d2, sn, PopSent(d2.socks[sn]), true);
  }

  lemma RxCompleteWorks(d: Drv, r: Reply)
    requires Wf(d) && Tidy(d)
    ensures NoIdle(DmaRxComplete(d, r).queue)
  {
    hide HandleSoc, SendPending, ReceivePending, PushSocs, Put;
    match d.running {
      case ReadSir(_) => if r.SirBits? { PushSocsWorks(d, r.sockets, 0); }
      case ReadSoc(sn) =>
        if sn < SOCKETS && r.SocRegs? { HandleSocWorks(SetSock(d, sn, d.socks[sn].(reg := r.regs)), sn); }
      case CheckRcv(sn) =>
        if sn < SOCKETS && r.RcvRegs? {
          var reg := d.socks[sn].reg.(rxRsr := r.rsr, rxRd := r.rd);
          ReceiveWorks(d, sn, d.socks[sn].(reg := reg, receiving := false), true);
        }
      case CheckTxFsr(sn) =>
        if sn < SOCKETS && r.TxRegs? {
          SendWorks(d, sn, d.socks[sn].(reg := d.socks[sn].reg.(txFsr := r.fsr, txWr := r.wr)), true);
        }
      case _ =>
    }
  }

  lemma {:induction false} TxChecksWork(d: Drv, sn: nat, ok: bool)
    requires Wf(d) && sn <= SOCKETS
    ensures Works(d, PushTxChecks(d, sn, ok), ok)
    decreases SOCKETS - sn
  {
    hide PushBack;
    if sn < SOCKETS {
      PushBackWorks(d, CheckTxFsr(sn), ok);
      TxChecksWork(if d.socks[sn].reg.sr == Established then PushBack(d, CheckTxFsr(sn), ok) else d, sn + 1, ok);
    }
  }

  lemma TimerWorks(d: Drv, ok: bool)
    requires Wf(d) && Tidy(d)
    ensures Tidy(TimerCallback(d, ok)) && (ok ==> Busy(TimerCallback(d, ok)))
  {
    hide PushBack, PushTxChecks, Start;
    StartWorks(d, ok);
    var d1 := if d.running.Idle? && d.queue != [] then Start(d, ok) else d;
    TxChecksWork(d1, 0, ok);
    PushBackWorks(PushTxChecks(d1, 0, ok), ReadSir(true), ok);
  }

  lemma TaskWorks(w: World, ev: Event)
    requires Shape(w) && Enabled(w, ev)
    requires ev.TaskSend? || ev.TaskSendTo? || ev.TaskRecv? || ev.TaskRecvFrom? || ev.TaskSetReg? || ev.TaskGetReg?
    ensures Works(w.d, Step(w, ev).d, ev.ok)
  {
    hide SendPending, ReceivePending, PushBack, Enqueue, RecvCopy, TakeDatagram, Removed, TooLarge;
    match ev {
      case TaskSend(sn, buf, ok) => if sn < SOCKETS { SendWorks(w.d, sn, Enqueue(w.d.socks[sn], buf, [], 0).0, ok); }
      case TaskSendTo(sn, buf, addr, port, ok) =>
        if sn < SOCKETS {
          SendWorks(w.d, sn, Enqueue(w.d.socks[sn], buf, addr, port).0, ok);
        }
      case TaskRecv(sn, len, ok) => if sn < SOCKETS { ReceiveWorks(w.d, sn, RecvCopy(w.d.socks[sn], len).0, ok); }
      case TaskRecvFrom(sn, len, ok) =>
        if sn < SOCKETS {
          ReceiveWorks(w.d, sn, TakeDatagram(w.d.socks[sn], len).0, ok);
        }
      case TaskSetReg(sn, off, data, ok) => PushBackWorks(w.d, WriteReg(sn, off, data), ok);
      case TaskGetReg(sn, off, count, ok) => PushBackWorks(w.d, ReadReg(sn, off, count, true), ok);
      case _ =>
    }
  }

  /** The SPI bus fails during the event. */
  predicate SpiFails(ev: Event) {
    ev.AsyncFailure? || !ev.ok
  }

  lemma StepWorks(w: World, ev: Event)
    requires Shape(w) && Enabled(w, ev)
    ensures Works(w.d, Step(w, ev).d, !SpiFails(ev))
    ensures Tidy(w.d) && ev == Timer(true) ==> Busy(Step(w, ev).d)
  {
    hide DmaRxComplete, Start, PushFront, TimerCallback, Send, SendTo, Recv, RecvFrom, EnqueueSetReg, EnqueueGetReg,
         ReplyOf, ChipsAfter, AfterEvent, StaleRecv, Removed, TakeDatagram;
    match ev {
      case Complete(ok) =>
        if Tidy(w.d) {
          RxCompleteWorks(w.d, ReplyOf(w));
          StartWorks(if w.d.dma == TxRx then DmaRxComplete(w.d, ReplyOf(w)) else w.d, ok);
        }
      case AsyncFailure =>
      case Timer(ok) => if Tidy(w.d) { TimerWorks(w.d, ok); }
      case ChipStep(sn, e, seen, ok) => PushFrontWorks(w.d, ReadSir(false), ok);
      case _ => TaskWorks(w, ev);
    }
  }

  /** At every step boundary of every run a transfer is in flight exactly while a command is
      running. */
  lemma {:induction false} OneTransfer(states: seq<World>, events: seq<Event>, i: nat)
    requires Run(states, events) && i < |states|
    ensures Tidy(states[i].d)
  {
    hide Step, Enabled, Opened;
    if i > 0 {
      OneTransfer(states, events, i - 1);
      assert OneStep(states[i - 1], events[i - 1], states[i - 1 + 1]);
      StepWorks(states[i - 1], events[i - 1]);
    }
  }

  /** Commands wait without a transfer in flight only after an SPI failure: as long as the bus
      does not fail after moment k, which is the start of the run or follows a timer tick with
      a working bus, the queue is being worked on. */
  lemma {:induction false} IdlesOnlyAfterFailure(states: seq<World>, events: seq<Event>, k: nat, i: nat)
    requires Run(states, events) && k <= i < |states|
    requires k == 0 || events[k - 1] == Timer(true)
    requires forall j :: k <= j < i ==> !SpiFails(events[j])
    ensures Busy(states[i].d)
    decreases i
  {
    hide Step, Enabled, Opened, Works;
    if i > 0 {
      OneTransfer(states, events, i - 1);
      assert OneStep(states[i - 1], events[i - 1], states[i - 1 + 1]);
      StepWorks(states[i - 1], events[i - 1]);
    }
    if i > k {
      IdlesOnlyAfterFailure(states, events, k, i - 1);
      WorksBusy(states[i - 1].d, states[i].d, !SpiFails(events[i - 1]));
    }
  }

  lemma WorksBusy(d: Drv, d': Drv, ok: bool)
    requires Works(d, d', ok) && Tidy(d) && ok && Busy(d)
    ensures Busy(d')
  {
  }
}
