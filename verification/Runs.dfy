/** Every step keeps the invariant, and so does every run. */
module Runs {
  import opened Bytes
  import opened Spi
  import opened DriverSpec
  import opened Chip
  import opened World
  import opened Lanes
  import opened LocalInv
  import opened Records
  import opened Scheduling
  import opened Invariant
  import opened TaskSteps
  import opened ReadCompletion
  import opened Growth

  lemma CompleteKeeps(w: World, ok: bool)
    requires Inv(w) && Clean(w) && Enabled(w, Complete(ok)) && Clean(Step(w, Complete(ok)))
    ensures Inv(Step(w, Complete(ok)))
  {
    hide Inv, Start, DmaRxComplete, ChipsAfter, ReplyOf, Landed;
    InvIsShape(w);
    CompletionSplits(w, ok);
    var w1 := Landed(w);
    StartGrows(w1.d, ok);
    LandedGrows(w);
    LandedKeeps(w);
    StartKeeps(w1, ok);
    HistoryIsFree(w1.(d := Start(w1.d, ok)), Step(w, Complete(ok)));
  }

  lemma LandedGrows(w: World)
    requires Shape(w)
    ensures Wf(Landed(w).d) && Grows(w.d, Landed(w).d)
  {
    hide DmaRxComplete, ChipsAfter, ReplyOf;
    RxCompleteGrows(w.d, ReplyOf(w));
  }

  /** The invariant does not look at the completion log. */
  lemma HistoryIsFree(w: World, w': World)
    requires Inv(w) && w' == w.(completed := w'.completed, pollFailed := w'.pollFailed)
    ensures Inv(w')
  {
    hide LInv, SchedInv, ServiceInv;
    forall s: SockNo
      ensures LInv(s, LocalOf(w', s))
    {
      assert LocalOf(w', s) == LocalOf(w, s);
    }
  }

  /** Every step of the driver and of its surroundings keeps the invariant. */
  lemma StepKeeps(w: World, ev: Event)
    requires Inv(w) && Clean(w) && Enabled(w, ev) && Clean(Step(w, ev))
    ensures Inv(Step(w, ev))
  {
    hide Inv, Clean, Step, Enabled;
    match ev {
      case TaskSend(sn, buf, ok) => SendKeeps(w, sn, buf, ok);
      case TaskSendTo(sn, buf, addr, port, ok) => SendToKeeps(w, sn, buf, addr, port, ok);
      case TaskRecv(sn, len, ok) => RecvKeeps(w, sn, len, ok);
      case TaskRecvFrom(sn, len, ok) => RecvFromStepKeeps(w, sn, len, ok);
      case TaskSetReg(sn, off, data, ok) => SetRegKeeps(w, sn, off, data, ok);
      case TaskGetReg(sn, off, count, ok) => GetRegKeeps(w, sn, off, count, ok);
      case Complete(ok) => CompleteKeeps(w, ok);
      case AsyncFailure => FailureKeeps(w);
      case Timer(ok) => TimerKeeps(w, ok);
      case ChipStep(sn, e, seen, ok) => ChipStepKeeps(w, sn, e, seen, ok);
    }
  }

  // ---- Runs ----------------------------------------------------------------------------------

  /** A socket as it is after opening: empty queues, a free command register and mirrors that
      show the chip. Pointers may start anywhere; what has been received and handed out before
      counts as history. */
  predicate Opened(sk: Sock, ch: ChipSock, h: Hist) {
    && ValidChip(ch) && StatusOf(ch.mode, ch.sr)
    && ch.cr == 0 && ch.ir == {} && !ch.transmitting
    && ch.txRd == ch.txWr && ch.rxRel == ch.rxRd == ch.rxWr && ch.sent == []
    && |sk.txBuf| <= 32767 && |sk.rxBuf| <= 32767
    && sk.reg == ShownRegs(ch) && sk.txq == [] && sk.rxq == []
    && !sk.sending && !sk.receiving && !sk.clash
    && h.accepted == [] && h.taken == ch.arrived && !h.lateData
    && (ch.mode == Udp ==> Whole(ch.arrived) && h.datagrams == Parse(ch.arrived))
    && (ch.mode == Tcp ==> h.datagrams == [])
  }

  ghost predicate Init(w: World) {
    && Wf(w.d) && |w.chips| == SOCKETS && |w.hist| == SOCKETS
    && w.d.queue == [] && w.d.running == Idle && w.d.dma == NoDma && w.d.fails == 0
    && w.completed == [] && !w.pollFailed
    && forall s :: 0 <= s < SOCKETS ==> Opened(w.d.socks[s], w.chips[s], w.hist[s])
  }

  lemma OpenedInv(s: SockNo, l: Local)
    requires Opened(l.sk, l.ch, l.h) && l.rx == [] && l.tx == [] && l.cr == [] && !l.crFlying && l.ack == {}
    ensures LInv(s, l)
  {
    hide Whole, Parse;
    AllTaken(l);
    assert RxQuiet(l);
    assert RxAt(s, l, Quiet);
    assert UdpAt(l, Quiet);
    assert TxCarried(l) && TxQuiet(l);
  }

  lemma AllTaken(l: Local)
    requires ValidChip(l.ch) && l.ch.rxRd == l.ch.rxWr && l.sk.rxq == [] && l.h.taken == l.ch.arrived
    ensures l.ch.arrived[..l.ch.rxRd] == l.ch.arrived && Taken(l, l.ch.rxRd)
  {
    assert l.ch.arrived[..|l.ch.arrived|] == l.ch.arrived;
    assert l.h.taken + [] == l.h.taken;
  }

  lemma InitInv(w: World)
    requires Init(w)
    ensures Inv(w) && Clean(w)
  {
    hide LInv;
    assert Shape(w) && SchedInv(w.d) && Pending(w.d) == [];
    forall s: SockNo
      ensures LInv(s, LocalOf(w, s))
    {
      assert Opened(w.d.socks[s], w.chips[s], w.hist[s]);
      OpenedInv(s, LocalOf(w, s));
    }
  }

  predicate OneStep(w: World, ev: Event, w': World) {
    Shape(w) && Enabled(w, ev) && w' == Step(w, ev)
  }

  /** A run from the opened sockets, one event at a time. */
  ghost predicate Run(states: seq<World>, events: seq<Event>) {
    && |states| == |events| + 1 && Init(states[0])
    && forall i :: 0 <= i < |events| ==> OneStep(states[i], events[i], states[i + 1])
  }

  lemma CleanBackwards(w: World, ev: Event)
    requires Shape(w) && Enabled(w, ev) && Clean(Step(w, ev))
    ensures Clean(w)
  {
    hide Step;
    StepGrows(w, ev);
  }

  /** Whenever nothing has gone wrong up to a point of a run, the invariant holds there. */
  lemma {:induction false} RunKeeps(states: seq<World>, events: seq<Event>, i: nat)
    requires Run(states, events) && i < |states| && Clean(states[i])
    ensures Inv(states[i])
  {
    hide Inv, Step, Clean, Init;
    if i == 0 {
      InitInv(states[0]);
    } else {
      var w, ev := states[i - 1], events[i - 1];
      assert OneStep(w, ev, states[i - 1 + 1]);
      CleanBackwards(w, ev);
      RunKeeps(states, events, i - 1);
      StepKeeps(w, ev);
    }
  }

  function Zeros(n: nat): seq<byte> {
    seq(n, i => 0)
  }

  function FreshChip(mode: Mode): ChipSock {
    ChipSock(mode, if mode == Tcp then Established else UdpOpen, {}, 0, Zeros(2048), 0, 0, 0, false, [], 0,
             Zeros(2048), 0, 0, 0, [], [])
  }

  function FreshSock(mode: Mode, size: nat): Sock {
    Sock(ShownRegs(FreshChip(mode)), 2, Zeros(size), [], Zeros(size), [], false, false, false)
  }

  /** Eight sockets that have just been opened, with buffers of the given size. */
  function OpenedWorld(modes: seq<Mode>, size: nat): (w: World)
    requires |modes| == SOCKETS
    ensures Wf(w.d) && |w.chips| == SOCKETS && |w.hist| == SOCKETS
    ensures forall s :: 0 <= s < SOCKETS ==>
                          w.chips[s] == FreshChip(modes[s]) && w.d.socks[s] == FreshSock(modes[s], size)
    ensures forall s :: 0 <= s < SOCKETS ==> w.hist[s] == Hist([], [], [], false)
  {
    World(Drv([], Idle, NoDma, seq(SOCKETS, s requires 0 <= s < SOCKETS => FreshSock(modes[s], size)), 0),
          seq(SOCKETS, s requires 0 <= s < SOCKETS => FreshChip(modes[s])),
          seq(SOCKETS, s => Hist([], [], [], false)), [], false)
  }

  lemma FreshValid(mode: Mode)
    ensures ValidChip(FreshChip(mode))
  {
  }

  lemma FreshOpened(mode: Mode, size: nat)
    requires size <= 32767
    ensures Opened(FreshSock(mode, size), FreshChip(mode), Hist([], [], [], false))
  {
  }

  /** Any choice of TCP and UDP for the eight sockets, all just opened, starts a run. */
  lemma StartExists(modes: seq<Mode>, size: nat)
    requires |modes| == SOCKETS && size <= 32767
    ensures Run([OpenedWorld(modes, size)], [])
            && forall s: SockNo :: OpenedWorld(modes, size).chips[s].mode == modes[s]
  {
    hide Opened, FreshSock;
    var w := OpenedWorld(modes, size);
    forall s | 0 <= s < SOCKETS
      ensures Opened(w.d.socks[s], w.chips[s], w.hist[s])
    {
      FreshOpened(modes[s], size);
    }
    assert Init(w);
  }
}
