/** Where the guarantees stop: each side condition of the theorems is needed, and needed
    exactly where it stands. */
module Limits {
  import opened Bytes
  import opened Spi
  import opened DriverSpec
  import opened Chip
  import opened World
  import opened Lanes
  import opened LocalInv
  import opened Scheduling
  import opened Invariant
  import opened TaskSteps
  import opened Completion
  import opened ReadCompletion
  import opened Growth
  import opened Runs
  import opened Theorems
  import opened Order

  // ---- Pushes onto a driver that has something to do -----------------------------------------------

  predicate Occupied(d: Drv) {
    !d.running.Idle? || d.queue != []
  }

  /** Commands may have been added at the back; the running command, the transfer and the
      mirrors are the same, and a socket without mirrored data receives as before. */
  ghost predicate Stays(d: Drv, d': Drv) {
    && Wf(d) && Wf(d') && d'.running == d.running && d'.dma == d.dma && d.queue <= d'.queue
    && (|d.queue| <= COMMAND_QUEUE_SIZE ==> |d'.queue| <= COMMAND_QUEUE_SIZE)
    && forall s :: 0 <= s < SOCKETS ==> SockStays(d.socks[s], d'.socks[s])
  }

  predicate SockStays(sk: Sock, sk': Sock) {
    sk'.reg == sk.reg && (sk.reg.rxRsr == 0 ==> sk'.receiving == sk.receiving)
  }

  lemma StaysTwice(a: Drv, b: Drv, c: Drv)
    requires Stays(a, b) && Stays(b, c)
    ensures Stays(a, c)
  {
  }

  lemma PushBackStays(d: Drv, c: Cmd, ok: bool)
    requires Wf(d) && Occupied(d)
    ensures Stays(d, PushBack(d, c, ok)) && Occupied(PushBack(d, c, ok))
  {
    hide Start;
  }

  lemma {:induction false} PushAllStays(d: Drv, cs: seq<Cmd>, ok: bool)
    requires Wf(d) && Occupied(d)
    ensures Stays(d, PushAll(d, cs, ok))
    decreases |cs|
  {
    hide PushBack, Stays, Occupied;
    if cs == [] {
      StaysSame(d);
    } else {
      var d1 := PushBack(d, cs[0], ok);
      PushBackStays(d, cs[0], ok);
      PushAllStays(d1, cs[1..], ok);
      StaysTwice(d, d1, PushAll(d1, cs[1..], ok));
    }
  }

  lemma StaysSame(d: Drv)
    requires Wf(d)
    ensures Stays(d, d)
  {
  }

  lemma SetSockStays(d: Drv, sn: SockNo, sk: Sock)
    requires Wf(d) && SockStays(d.socks[sn], sk)
    ensures Stays(d, SetSock(d, sn, sk))
  {
  }

  lemma PlansStay(sk: Sock, sn: SockNo)
    ensures SockStays(sk, SendPlan(sk, sn).0) && SockStays(sk, ReceivePlan(sk, sn).0)
  {
    hide Put, Header, SendBatch, RecvBatch;
  }

  /** A change of one socket record, then sendPendingData or receivePendingData. */
  lemma PendingStays(d: Drv, sn: SockNo, sk: Sock, ok: bool)
    requires Wf(d) && Occupied(d) && SockStays(d.socks[sn], sk)
    ensures Stays(d, SendPending(SetSock(d, sn, sk), sn, ok)) && Stays(d, ReceivePending(SetSock(d, sn, sk), sn, ok))
  {
    hide PushAll, SendPlan, ReceivePlan, Stays;
    PlansStay(sk, sn);
    var (sk1, cs1) := SendPlan(sk, sn);
    var (sk2, cs2) := ReceivePlan(sk, sn);
    assert d.socks[sn := sk][sn := sk1] == d.socks[sn := sk1] && d.socks[sn := sk][sn := sk2] == d.socks[sn := sk2];
    SetSockStays(d, sn, sk1);
    SetSockStays(d, sn, sk2);
    PushAllStays(SetSock(d, sn, sk1), cs1, ok);
    PushAllStays(SetSock(d, sn, sk2), cs2, ok);
    StaysTwice(d, SetSock(d, sn, sk1), PushAll(SetSock(d, sn, sk1), cs1, ok));
    StaysTwice(d, SetSock(d, sn, sk2), PushAll(SetSock(d, sn, sk2), cs2, ok));
  }

  lemma SendCallStays(w: World, ev: Event)
    requires Shape(w) && Enabled(w, ev) && (ev.TaskSend? || ev.TaskSendTo?) && Occupied(w.d)
    ensures Stays(w.d, Step(w, ev).d)
  {
    hide SendPending, Enqueue, TooLarge, Stays, Occupied;
    StaysSame(w.d);
    if ev.sn < SOCKETS {
      if ev.TaskSend? {
        EnqueueReg(w.d.socks[ev.sn], ev.buf, [], 0);
        PendingStays(w.d, ev.sn, Enqueue(w.d.socks[ev.sn], ev.buf, [], 0).0, ev.ok);
      } else {
        EnqueueReg(w.d.socks[ev.sn], ev.buf, ev.addr, ev.port);
        PendingStays(w.d, ev.sn, Enqueue(w.d.socks[ev.sn], ev.buf, ev.addr, ev.port).0, ev.ok);
      }
    }
  }

  lemma ReceiveCallStays(w: World, ev: Event)
    requires Shape(w) && Enabled(w, ev) && (ev.TaskRecv? || ev.TaskRecvFrom?) && Occupied(w.d)
    ensures Stays(w.d, Step(w, ev).d)
  {
    hide ReceivePending, RecvCopy, TakeDatagram, Removed, Stays, Occupied;
    StaysSame(w.d);
    if ev.sn < SOCKETS {
      RecvCopyReg(w.d.socks[ev.sn], ev.len);
      TakenReg(w.d.socks[ev.sn], ev.len);
      PendingStays(w.d, ev.sn, if ev.TaskRecv? then RecvCopy(w.d.socks[ev.sn], ev.len).0
                   else TakeDatagram(w.d.socks[ev.sn], ev.len).0, ev.ok);
    }
  }

  lemma TaskStays(w: World, ev: Event)
    requires Shape(w) && Enabled(w, ev) && IsTask(ev) && Occupied(w.d)
    ensures Stays(w.d, Step(w, ev).d)
  {
    hide Send, SendTo, Recv, RecvFrom, PushBack, TakeDatagram, Removed, Stays, Occupied;
    StaysSame(w.d);
    match ev {
      case TaskSend(sn, buf, ok) => SendCallStays(w, ev);
      case TaskSendTo(sn, buf, addr, port, ok) => SendCallStays(w, ev);
      case TaskRecv(sn, len, ok) => ReceiveCallStays(w, ev);
      case TaskRecvFrom(sn, len, ok) => ReceiveCallStays(w, ev);
      case TaskSetReg(sn, off, data, ok) => PushBackStays(w.d, WriteReg(sn, off, data), ok);
      case TaskGetReg(sn, off, count, ok) => PushBackStays(w.d, ReadReg(sn, off, count, true), ok);
    }
  }

  lemma {:induction false} TxChecksStay(d: Drv, sn: nat, ok: bool)
    requires Wf(d) && sn <= SOCKETS && Occupied(d)
    ensures Stays(d, PushTxChecks(d, sn, ok)) && Occupied(PushTxChecks(d, sn, ok))
    decreases SOCKETS - sn
  {
    hide PushBack, Stays, Occupied;
    StaysSame(d);
    if sn < SOCKETS {
      var d1 := if d.socks[sn].reg.sr == Established then PushBack(d, CheckTxFsr(sn), ok) else d;
      PushBackStays(d, CheckTxFsr(sn), ok);
      TxChecksStay(d1, sn + 1, ok);
      StaysTwice(d, d1, PushTxChecks(d1, sn + 1, ok));
    }
  }

  /** A timer tick after its restart of a waiting queue. */
  lemma TimerStays(d: Drv, ok: bool)
    requires Wf(d) && Occupied(d)
    ensures Stays(d, PushBack(PushTxChecks(d, 0, ok), ReadSir(true), ok))
  {
    hide PushBack, PushTxChecks, Stays, Occupied;
    TxChecksStay(d, 0, ok);
    var d1 := PushTxChecks(d, 0, ok);
    PushBackStays(d1, ReadSir(true), ok);
    StaysTwice(d, d1, PushBack(d1, ReadSir(true), ok));
  }

  // ---- The poll of a busy command register ---------------------------------------------------------

  /** The driver polls a command register that its mirror shows as busy. */
  predicate BusyPoll(d: Drv) {
    && Wf(d) && Polling(d) && d.queue != [] && d.queue[0] == d.running
    && d.socks[d.running.sn].reg.cr != 0 && |d.queue| <= COMMAND_QUEUE_SIZE
  }

  /** The chip event makes the Socket Interrupt Register non-zero and its INT edge is seen. */
  predicate RaisesInt(w: World, ev: Event)
    requires Shape(w) && Enabled(w, ev)
  {
    && ev.ChipStep? && ev.seen
    && Sir(w.chips) == {} && Sir(w.chips[ev.sn := AfterEvent(w.chips[ev.sn], ev.e)]) != {}
  }

  /** A failure of the bus, or an interrupt that finds room in the queue. */
  predicate EndsPoll(w: World, ev: Event)
    requires Shape(w) && Enabled(w, ev)
  {
    ev.AsyncFailure? || ev == Complete(false) || (RaisesInt(w, ev) && |w.d.queue| < COMMAND_QUEUE_SIZE)
  }

  /** The reply of a poll is dropped, so that the poll repeats unchanged. */
  lemma PollNeverRefreshes(w: World)
    requires Shape(w) && BusyPoll(w.d)
    ensures Enabled(w, Complete(true)) && Step(w, Complete(true)) == w
  {
    var q := w.d.queue;
    assert [q[0]] + q[1..] == q;
    PollReply(w);
  }

  lemma PollRefused(w: World)
    requires Shape(w) && BusyPoll(w.d)
    ensures Step(w, Complete(false)).d.running.Idle?
  {
    PollReply(w);
  }

  lemma StaysPolling(d: Drv, d': Drv)
    requires BusyPoll(d) && Stays(d, d')
    ensures BusyPoll(d')
  {
  }

  /** Whatever happens during such a poll, it goes on unless the bus fails or an interrupt is
      seen and finds room: acceptance of the command by the chip, ticks, calls, other data and
      completions of the poll itself do not end it. */
  lemma PollEndsOnlyBy(w: World, ev: Event)
    requires Shape(w) && BusyPoll(w.d) && Enabled(w, ev)
    ensures BusyPoll(Step(w, ev).d) <==> !EndsPoll(w, ev)
  {
    hide Send, SendTo, Recv, RecvFrom, EnqueueSetReg, EnqueueGetReg, TransferComplete, PushTxChecks, PushBack, ReplyOf,
         ChipsAfter, AfterEvent, StaleRecv, Removed, TakeDatagram, Stays, Sir;
    if IsTask(ev) {
      TaskStays(w, ev);
      StaysPolling(w.d, Step(w, ev).d);
    } else {
      match ev {
        case Complete(ok) => if ok { PollNeverRefreshes(w); } else { PollRefused(w); }
        case AsyncFailure =>
        case Timer(ok) =>
          TimerStays(w.d, ok);
          StaysPolling(w.d, Step(w, ev).d);
        case ChipStep(sn, e, seen, ok) =>
        case _ =>
      }
    }
  }

  ghost predicate PollEndedAt(states: seq<World>, events: seq<Event>, k: nat) {
    k < |events| && k + 1 < |states| && OneStep(states[k], events[k], states[k + 1]) && EndsPoll(states[k], events[k])
  }

  /** Over runs: the poll is still going on after any number of events if and only if none of
      them was a failure of the bus or an interrupt that found room. */
  lemma {:induction false} PollRepeats(states: seq<World>, events: seq<Event>, i: nat, j: nat)
    requires Run(states, events) && i <= j < |states| && BusyPoll(states[i].d)
    ensures (forall k :: i <= k <= j ==> BusyPoll(states[k].d))
            <==> (forall k :: i <= k < j ==> !PollEndedAt(states, events, k))
    decreases j - i
  {
    hide BusyPoll, Step, Enabled, Init, EndsPoll;
    if i < j {
      assert OneStep(states[i], events[i], states[i + 1]);
      PollEndsOnlyBy(states[i], events[i]);
      assert PollEndedAt(states, events, i) <==> EndsPoll(states[i], events[i]);
      if BusyPoll(states[i + 1].d) {
        PollRepeats(states, events, i + 1, j);
      }
    }
  }

  /** A write to a busy command register stays at the head of the queue while it is polled. */
  lemma BusyWritePolls(d: Drv)
    requires Wf(d) && Resting(d) && d.queue != [] && IsCrWrite(d.queue[0]) && d.socks[d.queue[0].sn].reg.cr != 0
    requires |d.queue| <= COMMAND_QUEUE_SIZE
    ensures BusyPoll(Start(d, true)) && Start(d, true).queue == d.queue
  {
    assert [d.queue[0]] + d.queue[1..] == d.queue;
  }

  /** An asynchronous failure during a poll queues the write a second time: the exact guard
      under which a failure leaves the pending commands as they were. */
  lemma FailureRepeatsOnlyPolls(d: Drv)
    requires SchedInv(d) && d.dma != NoDma && |d.queue| < COMMAND_QUEUE_SIZE
    ensures Pending(HandleSpiFailure(d)) == (if Polling(d) then [d.running] + Pending(d) else Pending(d))
    ensures Pending(HandleSpiFailure(d)) == Pending(d) <==> !Polling(d)
  {
    if Polling(d) { assert |[d.running] + Pending(d)| == |Pending(d)| + 1; }
  }

  // ---- The stale window ------------------------------------------------------------------------------

  /** Unread bytes, and nothing in the driver that will fetch them. */
  predicate Silent(w: World, s: SockNo)
    requires Shape(w)
  {
    w.chips[s].rxRd < w.chips[s].rxWr && !w.d.socks[s].receiving && w.d.socks[s].reg.rxRsr == 0
  }

  /** No flag announces them either. */
  predicate Asleep(w: World, s: SockNo)
    requires Shape(w)
  {
    Silent(w, s) && RECV !in w.chips[s].ir
  }

  /** Their flag is about to be cleared by an acknowledgement that does not mean it. */
  predicate Dozing(w: World, s: SockNo)
    requires Shape(w)
  {
    Silent(w, s) && StaleRecv(w.d, s)
  }

  /** Data arrives in the stale window. */
  predicate LateArrival(w: World, ev: Event, s: SockNo)
    requires Shape(w)
  {
    ev.ChipStep? && ev.e.Arrive? && ev.sn == s && StaleRecv(w.d, s)
  }

  /** The acknowledgement of socket s reaches the chip. */
  predicate Acknowledges(w: World, ev: Event, s: SockNo)
    requires Shape(w)
  {
    ev.Complete? && InFlight(w.d) && w.d.running.ClearIr? && w.d.running.sn == s
  }

  lemma AwakeMeans(w: World, s: SockNo)
    requires Inv(w)
    ensures Awake(LocalOf(w, s)) <==> !Asleep(w, s) && !Dozing(w, s)
  {
    hide SchedInv, ServiceInv, StaleRecv, RxInv, TxInv, CrInv;
    ViewOf(w, s);
    StaleInView(w, s);
  }

  /** The history flag of late data does not influence any step. */
  function Forget(w: World, s: SockNo): World
    requires Shape(w)
  {
    w.(hist := w.hist[s := w.hist[s].(lateData := false)])
  }

  lemma ForgetKeeps(w: World, s: SockNo)
    requires Inv(w) && Clean(w) && Awake(LocalOf(w, s))
    ensures Inv(Forget(w, s)) && Clean(Forget(w, s))
  {
    hide SchedInv, ServiceInv, RxInv, TxInv, StaticInv, CrInv, Awake;
    var w0 := Forget(w, s);
    ForgetViews(w, s);
    forall t: SockNo
      ensures LInv(t, LocalOf(w0, t))
    {
      assert LInv(t, LocalOf(w, t));
      if t == s { ForgetLocal(s, LocalOf(w, s)); }
    }
  }

  lemma ForgetViews(w: World, s: SockNo)
    requires Shape(w)
    ensures Shape(Forget(w, s))
    ensures forall t: SockNo :: LocalOf(Forget(w, s), t)
                                == if t == s then LocalOf(w, t).(h := w.hist[s].(lateData := false)) else LocalOf(w, t)
  {
    hide Sel, Pending, CrFlying, AckOf, ValidChip;
  }

  lemma ForgetLocal(s: SockNo, l: Local)
    requires LInv(s, l) && Awake(l)
    ensures LInv(s, l.(h := l.h.(lateData := false)))
  {
    hide RxAt, UdpAt, RxMemory, TxStage, TxCarried;
    var l' := l.(h := l.h.(lateData := false));
    RxFrame(s, l, l');
    TxFrame(s, l, l');
  }

  lemma ForgetCommutes(w: World, ev: Event, s: SockNo)
    requires Shape(w) && Shape(Forget(w, s)) && Enabled(w, ev)
    ensures Enabled(Forget(w, s), ev)
    ensures var w', w0' := Step(w, ev), Step(Forget(w, s), ev);
            && w0'.d == w'.d && w0'.chips == w'.chips && w0'.pollFailed == w'.pollFailed && |w0'.hist| == SOCKETS
            && (w0'.hist[s].lateData <==> LateArrival(w, ev, s))
  {
    hide Send, SendTo, Recv, RecvFrom, EnqueueSetReg, EnqueueGetReg, TransferComplete, TimerCallback, InterruptCallback,
         HandleSpiFailure, AfterEvent, StaleRecv, Removed, TakeDatagram, Sir, AfterWrite, ReadReply, ValidChip;
  }

  lemma AwakeKept(w: World, ev: Event, s: SockNo)
    requires Inv(w) && Clean(w) && Enabled(w, ev) && Clean(Step(w, ev)) && Awake(LocalOf(w, s))
             && !LateArrival(w, ev, s)
    ensures Inv(Step(w, ev)) && Awake(LocalOf(Step(w, ev), s))
  {
    hide LInv, Step, Enabled, SchedInv, ServiceInv, Awake, StaleRecv;
    var w0 := Forget(w, s);
    ForgetKeeps(w, s);
    InvIsShape(w);
    InvIsShape(w0);
    ForgetCommutes(w, ev, s);
    StepKeeps(w, ev);
    StepKeeps(w0, ev);
    AwakeOfInv(Step(w0, ev), s);
    SameAwake(Step(w, ev), Step(w0, ev), s);
  }

  lemma AwakeOfInv(w: World, s: SockNo)
    requires Inv(w) && !w.hist[s].lateData
    ensures Awake(LocalOf(w, s))
  {
    hide SchedInv, ServiceInv, RxInv, TxInv, StaticInv, CrInv, Awake;
    assert LInv(s, LocalOf(w, s));
  }

  lemma SameAwake(w: World, w0: World, s: SockNo)
    requires Shape(w) && Shape(w0) && w0.d == w.d && w0.chips == w.chips
    ensures Awake(LocalOf(w0, s)) == Awake(LocalOf(w, s))
  {
    hide Sel, Pending, CrFlying, AckOf, ValidChip;
  }

  /** A socket whose unread data is announced, or that has none, stops being so exactly when
      data arrives in the stale window. */
  lemma WindowOpens(w: World, ev: Event, s: SockNo)
    requires Inv(w) && Clean(w) && Enabled(w, ev) && Clean(Step(w, ev)) && !Asleep(w, s) && !Dozing(w, s)
    ensures Shape(Step(w, ev)) && ((Asleep(Step(w, ev), s) || Dozing(Step(w, ev), s)) <==> LateArrival(w, ev, s))
  {
    hide Inv, Step, Enabled, Asleep, Dozing, Awake, StaleRecv;
    InvIsShape(w);
    AwakeMeans(w, s);
    StepKeeps(w, ev);
    InvIsShape(Step(w, ev));
    AwakeMeans(Step(w, ev), s);
    if LateArrival(w, ev, s) { LateDozes(w, ev, s); } else { AwakeKept(w, ev, s); }
  }

  /** With an acknowledgement pending, some flag is raised already, so that no edge comes. */
  lemma NoEdge(w: World, s: SockNo)
    requires Inv(w) && StaleRecv(w.d, s)
    ensures Sir(w.chips) != {} && Occupied(w.d)
  {
    hide LInv;
    var p := Pending(w.d);
    assert p != [] && p[0].ClearIr? && p[0].sn == s;
    assert w.chips[p[0].sn].ir != {};
    assert s in Sir(w.chips);
  }

  lemma LateDozes(w: World, ev: Event, s: SockNo)
    requires Inv(w) && Enabled(w, ev) && LateArrival(w, ev, s)
    ensures Shape(Step(w, ev)) ==> Dozing(Step(w, ev), s)
  {
    hide Inv, StaleRecv, RingWrite, InterruptCallback, Sir, Next;
    InvIsShape(w);
    NoEdge(w, s);
    StaleIs(w.d, s);
    ReadBeforeWrite(w, s);
  }

  lemma ReadBeforeWrite(w: World, s: SockNo)
    requires Shape(w)
    ensures w.chips[s].rxRd <= w.chips[s].rxWr
  {
  }

  // ---- From the window to sleep ----------------------------------------------------------------------

  /** The command that will be the next to reach the chip. */
  function Next(d: Drv): Cmd {
    if (d.running.Idle? || Polling(d)) && d.queue != [] then d.queue[0] else d.running
  }

  lemma StaleIs(d: Drv, s: SockNo)
    requires Wf(d)
    ensures StaleRecv(d, s) <==>
              && Next(d).ClearIr? && Next(d).sn == s && RECV in Next(d).flags
              && !d.socks[s].receiving && d.socks[s].reg.rxRsr == 0
  {
  }

  lemma StaysStale(d: Drv, d': Drv, s: SockNo)
    requires Stays(d, d') && StaleRecv(d, s) && Occupied(d)
    ensures StaleRecv(d', s)
  {
    assert SockStays(d.socks[s], d'.socks[s]);
  }

  /** Starting the next command, or failing to, leaves it the next. */
  lemma StartStale(d: Drv, ok: bool, s: SockNo)
    requires Wf(d) && Resting(d) && StaleRecv(d, s) && |d.queue| <= COMMAND_QUEUE_SIZE
    ensures StaleRecv(Start(d, ok), s) && Occupied(Start(d, ok))
  {
  }

  lemma FailureStale(d: Drv, s: SockNo)
    requires Wf(d) && InFlight(d) && !d.running.Idle? && StaleRecv(d, s) && HandleSpiFailure(d).fails == d.fails
    ensures StaleRecv(HandleSpiFailure(d), s)
  {
  }

  lemma TimerStale(w: World, ok: bool, s: SockNo)
    requires Inv(w) && StaleRecv(w.d, s)
    ensures StaleRecv(TimerCallback(w.d, ok), s)
  {
    hide Inv, PushBack, PushTxChecks, Start, StaleRecv, Stays, Pending;
    InvIsShape(w);
    NoEdge(w, s);
    SchedRest(w.d);
    var d1 := if w.d.running.Idle? && w.d.queue != [] then Start(w.d, ok) else w.d;
    if w.d.running.Idle? && w.d.queue != [] { StartStale(w.d, ok, s); }
    TimerStays(d1, ok);
    StaysStale(d1, PushBack(PushTxChecks(d1, 0, ok), ReadSir(true), ok), s);
  }

  lemma SchedRest(d: Drv)
    requires SchedInv(d)
    ensures (d.running.Idle? ==> Resting(d)) && |d.queue| <= COMMAND_QUEUE_SIZE && (d.running.Idle? <==> d.dma == NoDma)
  {
  }

  /** The completion of anything but the acknowledgement is that of a poll. */
  lemma CompleteStale(w: World, ok: bool, s: SockNo)
    requires Inv(w) && StaleRecv(w.d, s) && w.d.dma != NoDma && !Acknowledges(w, Complete(ok), s)
    ensures StaleRecv(Step(w, Complete(ok)).d, s)
  {
    hide Inv, Start, ChipsAfter, SchedInv;
    InvIsShape(w);
    SchedRest(w.d);
    assert Polling(w.d);
    PollReply(w);
    StartForgets(w.d, ok);
    StartStale(Rest(w.d), ok, s);
  }

  lemma AcknowledgedSleeps(w: World, ev: Event, s: SockNo)
    requires Inv(w) && Clean(w) && Enabled(w, ev) && Clean(Step(w, ev)) && Dozing(w, s) && Acknowledges(w, ev, s)
    ensures Shape(Step(w, ev)) ==> Asleep(Step(w, ev), s)
  {
    hide Inv, Start;
    InvIsShape(w);
    InFlightHead(w);
  }

  /** The read pointer moves only while the socket is receiving. */
  lemma StillUnread(w: World, ev: Event, s: SockNo)
    requires Inv(w) && Enabled(w, ev) && Dozing(w, s) && !Acknowledges(w, ev, s)
    ensures |Step(w, ev).chips| == SOCKETS && Step(w, ev).chips[s].rxRd < Step(w, ev).chips[s].rxWr
  {
    hide Inv, Send, SendTo, Recv, RecvFrom, EnqueueSetReg, EnqueueGetReg, TransferComplete, TimerCallback,
         InterruptCallback, HandleSpiFailure, Removed, TakeDatagram, Sir, RingWrite, RingRead, SchedInv;
    InvIsShape(w);
    SchedRest(w.d);
    if ev.Complete? {
      assert Polling(w.d);
      PollReply(w);
    }
  }

  lemma OtherStale(w: World, ev: Event, s: SockNo)
    requires Inv(w) && Clean(w) && Enabled(w, ev) && Clean(Step(w, ev)) && Dozing(w, s) && !Acknowledges(w, ev, s)
    ensures Wf(Step(w, ev).d) && StaleRecv(Step(w, ev).d, s)
  {
    hide Inv, Send, SendTo, Recv, RecvFrom, EnqueueSetReg, EnqueueGetReg, TransferComplete, TimerCallback,
         InterruptCallback, HandleSpiFailure, Removed, TakeDatagram, Sir, AfterEvent, StaleRecv, Stays, Occupied,
         SchedInv, Pending;
    InvIsShape(w);
    NoEdge(w, s);
    StepGrows(w, ev);
    if IsTask(ev) {
      TaskStays(w, ev);
      StaysStale(w.d, Step(w, ev).d, s);
    } else {
      match ev {
        case Complete(ok) => CompleteStale(w, ok, s);
        case AsyncFailure =>
          SchedRest(w.d);
          FailureStale(w.d, s);
        case Timer(ok) => TimerStale(w, ok, s);
        case ChipStep(sn, e, seen, ok) =>
        case _ =>
      }
    }
  }

  /** Data that has arrived in the window stays unannounced whatever happens, until the
      acknowledgement reaches the chip; then it sleeps. */
  lemma DozingEndsInSleep(w: World, ev: Event, s: SockNo)
    requires Inv(w) && Clean(w) && Enabled(w, ev) && Clean(Step(w, ev)) && Dozing(w, s)
    ensures Shape(Step(w, ev)) && if Acknowledges(w, ev, s) then Asleep(Step(w, ev), s) else Dozing(Step(w, ev), s)
  {
    hide Inv, Step, Enabled, StaleRecv;
    InvIsShape(w);
    StepKeeps(w, ev);
    InvIsShape(Step(w, ev));
    if Acknowledges(w, ev, s) {
      AcknowledgedSleeps(w, ev, s);
    } else {
      StillUnread(w, ev, s);
      OtherStale(w, ev, s);
      StaleIs(Step(w, ev).d, s);
    }
  }

  ghost predicate AcknowledgedAt(states: seq<World>, events: seq<Event>, k: nat, s: SockNo) {
    k < |events| && k < |states| && Shape(states[k]) && Acknowledges(states[k], events[k], s)
  }

  lemma {:induction false} DozingOn(states: seq<World>, events: seq<Event>, i: nat, j: nat, s: SockNo)
    requires Reached(states, events, j) && i < j && Shape(states[i]) && LateArrival(states[i], events[i], s)
    requires forall k :: i < k < j ==> !AcknowledgedAt(states, events, k, s)
    ensures Shape(states[j]) && Dozing(states[j], s)
    decreases j - i
  {
    hide Clean, Init, Step, Enabled, Inv, Dozing, Acknowledges, StaleRecv;
    EarlierReached(states, events, j);
    ReachedInv(states, events, j, s);
    ReachedInv(states, events, j - 1, s);
    if i == j - 1 {
      LateDozes(states[i], events[i], s);
    } else {
      DozingOn(states, events, i, j - 1, s);
      DozingEndsInSleep(states[j - 1], events[j - 1], s);
      assert !AcknowledgedAt(states, events, j - 1, s);
    }
  }

  /** Data that arrives anywhere in the stale window, and the first acknowledgement of that
      socket after it, whatever lies between: the socket is asleep. */
  lemma LateArrivalSleeps(states: seq<World>, events: seq<Event>, i: nat, j: nat, s: SockNo)
    requires Reached(states, events, j + 1) && i < j && Shape(states[i]) && LateArrival(states[i], events[i], s)
    requires (forall k :: i < k < j ==> !AcknowledgedAt(states, events, k, s)) && AcknowledgedAt(states, events, j, s)
    ensures Shape(states[j + 1]) && Asleep(states[j + 1], s)
  {
    hide Clean, Init, Step, Enabled, Inv, Dozing, Asleep, Acknowledges, LateArrival;
    EarlierReached(states, events, j + 1);
    ReachedInv(states, events, j, s);
    DozingOn(states, events, i, j, s);
    DozingEndsInSleep(states[j], events[j], s);
  }
}
