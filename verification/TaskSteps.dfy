/** Task calls, the timer, asynchronous failures and the chip's own steps keep the
    invariant. */
module TaskSteps {
  import opened Bytes
  import opened Options
  import opened Spi
  import opened RingAlloc
  import opened DriverSpec
  import opened Chip
  import opened World
  import opened Lanes
  import opened LocalInv
  import opened TxSteps
  import opened RxSteps
  import opened RegSteps
  import opened UdpSteps
  import opened ChipSteps
  import opened Scheduling
  import opened Invariant
  import opened Appending

  // ---- Changing one socket record ------------------------------------------------------------

  function WithSock(w: World, sn: SockNo, sk: Sock, h: Hist): World
    requires Shape(w)
  {
    w.(d := w.d.(socks := w.d.socks[sn := sk]), hist := w.hist[sn := h])
  }

  lemma SockChanges(w: World, sn: SockNo, sk: Sock, h: Hist)
    requires Inv(w) && LInv(sn, LocalOf(w, sn).(sk := sk, h := h))
    ensures Inv(WithSock(w, sn, sk, h))
  {
    hide LInv;
    var w' := WithSock(w, sn, sk, h);
    assert Pending(w.d) + [] == Pending(w.d);
    assert LocalOf(w', sn) == LocalOf(w, sn).(sk := sk, h := h);
    OneSocket(w, w', sn, []);
  }

  // ---- send and sendto ------------------------------------------------------------------------

  function EnqueuedWorld(w: World, sn: SockNo, buf: seq<byte>, addr: seq<byte>, port: u16): World
    requires Shape(w)
  {
    var (sk, ret) := Enqueue(w.d.socks[sn], buf, addr, port);
    var h := w.hist[sn];
    WithSock(w, sn, sk, if ret == SOCK_OK then h.(accepted := h.accepted + [Msg(buf, addr, port)]) else h)
  }

  lemma EnqueuedKeeps(w: World, sn: SockNo, buf: seq<byte>, addr: seq<byte>, port: u16)
    requires Inv(w) && buf != [] && !TooLarge(w.d.socks[sn], buf)
    requires w.chips[sn].mode == Tcp ==> addr == [] && port == 0
    requires !Enqueue(w.d.socks[sn], buf, addr, port).0.clash
    ensures Inv(EnqueuedWorld(w, sn, buf, addr, port))
  {
    hide LInv, BufferIndex, Put, Full;
    var l := LocalOf(w, sn);
    assert LInv(sn, l);
    EnqueueKeeps(sn, l, buf, addr, port);
    var l' := AfterEnqueue(l, buf, addr, port);
    assert l' == l.(sk := l'.sk, h := l'.h);
    SockChanges(w, sn, l'.sk, l'.h);
    assert EnqueuedWorld(w, sn, buf, addr, port) == WithSock(w, sn, l'.sk, l'.h);
  }

  lemma QueuedThenSent(w: World, sn: SockNo, buf: seq<byte>, addr: seq<byte>, port: u16, ok: bool)
    requires Inv(w) && buf != [] && !TooLarge(w.d.socks[sn], buf)
    requires w.chips[sn].mode == Tcp ==> addr == [] && port == 0
    requires var w1 := EnqueuedWorld(w, sn, buf, addr, port);
             var d := SendPending(w1.d, sn, ok);
             d.fails == w.d.fails && !d.socks[sn].clash
    ensures var w1 := EnqueuedWorld(w, sn, buf, addr, port); Inv(w1.(d := SendPending(w1.d, sn, ok)))
  {
    hide LInv, Inv, Enqueue, TooLarge, SendBatch, Put, Header;
    InvIsShape(w);
    var w1 := EnqueuedWorld(w, sn, buf, addr, port);
    SendKeepsClash(w1.d, sn, ok);
    EnqueuedKeeps(w, sn, buf, addr, port);
    SendPendingKeeps(w1, sn, ok);
  }

  lemma InvIsShape(w: World)
    requires Inv(w)
    ensures Shape(w) && SchedInv(w.d)
  {
    hide LInv;
  }

  lemma SendKeepsClash(d: Drv, sn: SockNo, ok: bool)
    requires Wf(d)
    ensures SendPending(d, sn, ok).socks[sn].clash == d.socks[sn].clash
  {
    hide SendBatch, Put, Header;
  }

  /** The mode in the status mirror is the chip's. */
  lemma StatusTellsMode(w: World, sn: SockNo)
    requires Inv(w)
    ensures w.d.socks[sn].reg.sr == Established || w.d.socks[sn].reg.sr == CloseWait ==> w.chips[sn].mode == Tcp
    ensures w.d.socks[sn].reg.sr == UdpOpen ==> w.chips[sn].mode == Udp
  {
    hide RxInv, TxInv, CrInv, Awake;
    assert LInv(sn, LocalOf(w, sn));
  }

  lemma SendKeeps(w: World, sn: nat, buf: seq<byte>, ok: bool)
    requires Inv(w) && Clean(w) && Enabled(w, TaskSend(sn, buf, ok)) && Clean(Step(w, TaskSend(sn, buf, ok)))
    ensures Inv(Step(w, TaskSend(sn, buf, ok)))
  {
    hide LInv, Inv, Enqueue, TooLarge, SendPending;
    InvIsShape(w);
    if sn < SOCKETS && Send(w.d, sn, buf, ok) != (w.d, INVALID_PARAM) && Send(w.d, sn, buf, ok) != (w.d, INVALID_STATE)
       && Send(w.d, sn, buf, ok) != (w.d, PACK_TOO_LRG) {
      StatusTellsMode(w, sn);
      SentWorld(w, sn, buf, [], 0, ok);
      QueuedThenSent(w, sn, buf, [], 0, ok);
    }
  }

  /** The step of an accepted call is the queueing step followed by sendPendingData. */
  lemma SentWorld(w: World, sn: SockNo, buf: seq<byte>, addr: seq<byte>, port: u16, ok: bool)
    requires Shape(w)
    ensures var (sk, ret) := Enqueue(w.d.socks[sn], buf, addr, port);
            var w1 := EnqueuedWorld(w, sn, buf, addr, port);
            Accepted(w, sn, Msg(buf, addr, port), (SendPending(SetSock(w.d, sn, sk), sn, ok), ret))
            == w1.(d := SendPending(w1.d, sn, ok))
  {
    hide Enqueue, SendPending;
    assert w.hist[sn := w.hist[sn]] == w.hist;
  }

  lemma SendToKeeps(w: World, sn: nat, buf: seq<byte>, addr: seq<byte>, port: u16, ok: bool)
    requires Inv(w) && Clean(w)
    requires Enabled(w, TaskSendTo(sn, buf, addr, port, ok)) && Clean(Step(w, TaskSendTo(sn, buf, addr, port, ok)))
    ensures Inv(Step(w, TaskSendTo(sn, buf, addr, port, ok)))
  {
    hide LInv, Inv, Enqueue, TooLarge, SendPending;
    InvIsShape(w);
    var r := SendTo(w.d, sn, buf, addr, port, ok);
    if sn < SOCKETS && r != (w.d, INVALID_PARAM) && r != (w.d, INVALID_STATE) && r != (w.d, PACK_TOO_LRG) {
      StatusTellsMode(w, sn);
      SentWorld(w, sn, buf, addr, port, ok);
      QueuedThenSent(w, sn, buf, addr, port, ok);
    }
  }

  // ---- recv and recvfrom ------------------------------------------------------------------------

  lemma TakenThenReceived(w: World, sn: SockNo, sk: Sock, h: Hist, ok: bool)
    requires Inv(w) && LInv(sn, LocalOf(w, sn).(sk := sk, h := h))
    requires var d := ReceivePending(SetSock(w.d, sn, sk), sn, ok); d.fails == w.d.fails && !d.socks[sn].clash
    ensures Inv(w.(d := ReceivePending(SetSock(w.d, sn, sk), sn, ok), hist := w.hist[sn := h]))
  {
    hide LInv, Inv, ReceivePending;
    InvIsShape(w);
    SockChanges(w, sn, sk, h);
    ReceivePendingKeeps(WithSock(w, sn, sk, h), sn, ok);
  }

  lemma RecvKeeps(w: World, sn: nat, len: u16, ok: bool)
    requires Inv(w) && Clean(w) && Enabled(w, TaskRecv(sn, len, ok)) && Clean(Step(w, TaskRecv(sn, len, ok)))
    ensures Inv(Step(w, TaskRecv(sn, len, ok)))
  {
    hide LInv, RecvCopy, ReceivePending;
    if sn < SOCKETS {
      var l := LocalOf(w, sn);
      assert LInv(sn, l);
      if len == 0 {
        assert w.hist[sn].taken + [] == w.hist[sn].taken;
        assert w.hist[sn := w.hist[sn]] == w.hist;
      } else {
        RecvCopyKeeps(sn, l, len);
        var r := RecvCopy(l.sk, len);
        var l' := AfterTaken(l, r.0, r.1);
        TakenThenReceived(w, sn, l'.sk, l'.h, ok);
      }
    }
  }

  lemma RecvFromStepKeeps(w: World, sn: nat, len: u16, ok: bool)
    requires Inv(w) && Clean(w) && Enabled(w, TaskRecvFrom(sn, len, ok)) && Clean(Step(w, TaskRecvFrom(sn, len, ok)))
    ensures Inv(Step(w, TaskRecvFrom(sn, len, ok)))
  {
    hide LInv, TakeDatagram, ReceivePending, Removed;
    if sn < SOCKETS && len != 0 {
      var l := LocalOf(w, sn);
      assert LInv(sn, l);
      RecvFromKeeps(sn, l, len);
      RefusedUnchanged(l.sk, len);
      var l' := AfterRecvFrom(l, len);
      assert l' == l.(sk := l'.sk, h := l'.h);
      TakenThenReceived(w, sn, l'.sk, l'.h, ok);
      assert w.hist[sn := w.hist[sn]] == w.hist;
    }
  }

  lemma RefusedUnchanged(sk: Sock, len: u16)
    ensures TakeDatagram(sk, len).1 == None ==> TakeDatagram(sk, len).0 == sk
  {
  }

  // ---- Plain commands at the back ---------------------------------------------------------------

  /** A command that is on no lane of any socket, or concerns a command register without being
      SEND or RECV. */
  predicate Plain(c: Cmd) {
    || c.ReadReg? || c.ReadSir? || (c.CheckTxFsr? && c.sn < SOCKETS)
    || (c.WriteReg? && (OptionReg(c.sn, c.off) || SocketCommand(c.sn, c.off, c.data)))
  }

  /** It concerns the command register of socket s. */
  predicate OnCr(c: Cmd, s: SockNo) { On(c, CrLane(s)) }

  lemma CrAppended(s: SockNo, l: Local, c: Cmd)
    requires LInv(s, l)
    ensures LInv(s, l.(cr := l.cr + [c]))
  {
    hide RxAt, RxMemory, TxStage, TxCarried;
    var l' := l.(cr := l.cr + [c]);
    RxFrame(s, l, l');
    TxFrame(s, l, l');
  }

  lemma PlainLanes(c: Cmd, s: SockNo)
    requires Plain(c)
    ensures Sel([c], RxLane(s)) == [] && Sel([c], TxLane(s)) == []
    ensures Sel([c], CrLane(s)) == if OnCr(c, s) then [c] else []
  {
    assert [c][1..] == [];
  }

  /** The command is at the end of the pending list and not yet started. */
  lemma PlacedKeeps(w: World, d': Drv, c: Cmd)
    requires Inv(w) && Plain(c) && SchedInv(d') && Pending(d') == Pending(w.d) + [c] && d'.socks == w.d.socks
    requires forall s :: CrFlying(d', s) <==> CrFlying(w.d, s)
    ensures Inv(w.(d := d'))
  {
    hide LInv, LocalOf, SchedInv, ServiceInv;
    var w' := w.(d := d');
    assert Ordinary([c]);
    InvIsShape(w);
    ServiceGrown(Pending(w.d), [c], w.chips);
    forall s: SockNo
      ensures LInv(s, LocalOf(w', s))
    {
      var l := LocalOf(w, s);
      assert LInv(s, l);
      GrownLocal(w, w', s, [c]);
      PlainGrown(w, w', s, c);
      if OnCr(c, s) { CrAppended(s, l, c); }
    }
  }

  lemma PlainKeeps(w: World, c: Cmd, ok: bool)
    requires Inv(w) && Plain(c) && PushBack(w.d, c, ok).fails == w.d.fails
    ensures Inv(w.(d := PushBack(w.d, c, ok)))
  {
    hide Inv, PushBack, SchedInv, Start, CrFlying;
    InvIsShape(w);
    PushBackPending(w.d, c, ok);
    var placed := w.d.(queue := w.d.queue + [c]);
    PlacedKeeps(w, placed, c);
    if Pending(w.d) == [] { StartKeeps(w.(d := placed), ok); }
  }

  lemma PlainGrown(w: World, w': World, s: SockNo, c: Cmd)
    requires Shape(w) && w' == w.(d := w'.d) && w'.d.socks == w.d.socks && Plain(c)
    ensures var l := LocalOf(w, s);
            Grown(w', s, l, [c]) == if OnCr(c, s) then l.(cr := l.cr + [c]) else l
  {
    hide OnCr;
    PlainLanes(c, s);
    var l := LocalOf(w, s);
    assert l.rx + [] == l.rx && l.tx + [] == l.tx && l.cr + [] == l.cr;
  }

  lemma SetRegKeeps(w: World, sn: nat, off: u16, data: seq<byte>, ok: bool)
    requires Inv(w) && Clean(w) && Enabled(w, TaskSetReg(sn, off, data, ok))
             && Clean(Step(w, TaskSetReg(sn, off, data, ok)))
    ensures Inv(Step(w, TaskSetReg(sn, off, data, ok)))
  {
    hide LInv, Inv, PushBack;
    InvIsShape(w);
    if |data| <= 7 && |w.d.queue| < COMMAND_QUEUE_SIZE { PlainKeeps(w, WriteReg(sn, off, data), ok); }
  }

  lemma GetRegKeeps(w: World, sn: nat, off: u16, count: nat, ok: bool)
    requires Inv(w) && Clean(w) && Enabled(w, TaskGetReg(sn, off, count, ok))
             && Clean(Step(w, TaskGetReg(sn, off, count, ok)))
    ensures Inv(Step(w, TaskGetReg(sn, off, count, ok)))
  {
    hide LInv, Inv, PushBack;
    InvIsShape(w);
    if count <= 7 && |w.d.queue| < COMMAND_QUEUE_SIZE { PlainKeeps(w, ReadReg(sn, off, count, true), ok); }
  }

  // ---- Timer ---------------------------------------------------------------------------------------

  lemma {:induction false} TxChecksFails(d: Drv, sn: nat, ok: bool)
    requires Wf(d) && sn <= SOCKETS
    ensures d.fails <= PushTxChecks(d, sn, ok).fails
    decreases SOCKETS - sn
  {
    hide PushBack;
    if sn < SOCKETS {
      PushBackFails(d, CheckTxFsr(sn), ok);
      TxChecksFails(if d.socks[sn].reg.sr == Established then PushBack(d, CheckTxFsr(sn), ok) else d, sn + 1, ok);
    }
  }

  lemma {:induction false} TxChecksKeep(w: World, sn: nat, ok: bool)
    requires Inv(w) && sn <= SOCKETS && PushTxChecks(w.d, sn, ok).fails == w.d.fails
    ensures Inv(w.(d := PushTxChecks(w.d, sn, ok)))
    decreases SOCKETS - sn
  {
    hide Inv, PushBack;
    InvIsShape(w);
    if sn < SOCKETS {
      var d1 := if w.d.socks[sn].reg.sr == Established then PushBack(w.d, CheckTxFsr(sn), ok) else w.d;
      TxChecksFails(d1, sn + 1, ok);
      PushBackFails(w.d, CheckTxFsr(sn), ok);
      if w.d.socks[sn].reg.sr == Established { PlainKeeps(w, CheckTxFsr(sn), ok); }
      TxChecksKeep(w.(d := d1), sn + 1, ok);
    }
  }

  lemma TimerKeeps(w: World, ok: bool)
    requires Inv(w) && Clean(w) && Clean(Step(w, Timer(ok)))
    ensures Inv(Step(w, Timer(ok)))
  {
    hide Inv, PushBack, PushTxChecks, Start;
    InvIsShape(w);
    var d1 := if w.d.running.Idle? && w.d.queue != [] then Start(w.d, ok) else w.d;
    var d2 := PushTxChecks(d1, 0, ok);
    TxChecksFails(d1, 0, ok);
    PushBackFails(d2, ReadSir(true), ok);
    if w.d.running.Idle? && w.d.queue != [] {
      assert Resting(w.d);
      StartPending(w.d, ok);
      StartKeeps(w, ok);
    }
    TxChecksKeep(w.(d := d1), 0, ok);
    PlainKeeps(w.(d := d2), ReadSir(true), ok);
  }

  // ---- Asynchronous failure ---------------------------------------------------------------------------

  lemma FailureKeeps(w: World)
    requires Inv(w) && Clean(w) && Enabled(w, AsyncFailure) && Clean(Step(w, AsyncFailure))
    ensures Inv(Step(w, AsyncFailure))
  {
    hide LInv, HandleSpiFailure, SchedInv, ServiceInv;
    InvIsShape(w);
    var w' := Step(w, AsyncFailure);
    FailurePending(w.d);
    forall s: SockNo
      ensures LInv(s, LocalOf(w', s))
    {
      var l := LocalOf(w, s);
      assert LInv(s, l);
      CrStopKeeps(s, l);
      assert LocalOf(w', s) == l.(crFlying := false);
    }
  }

  // ---- Chip events and the INT pin -----------------------------------------------------------------------

  /** While no socket has a raised flag, no interrupt service is pending. */
  lemma QuietService(p: seq<Cmd>, chips: seq<ChipSock>)
    requires |chips| == SOCKETS && ServiceInv(p, chips) && Sir(chips) == {}
    ensures forall i :: 0 <= i < |p| ==> !p[i].ReadSoc? && !p[i].ClearIr?
  {
    forall s | 0 <= s < SOCKETS
      ensures chips[s].ir == {}
    {
      assert s !in Sir(chips);
    }
  }

  lemma SirLanes(p: seq<Cmd>, k: nat, s: SockNo)
    requires k <= |p|
    ensures var p' := p[..k] + [ReadSir(false)] + p[k..];
            Sel(p', RxLane(s)) == Sel(p, RxLane(s)) && Sel(p', TxLane(s)) == Sel(p, TxLane(s))
                && Sel(p', CrLane(s)) == Sel(p, CrLane(s))
  {
    SelInsert(p, k, ReadSir(false), RxLane(s));
    SelInsert(p, k, ReadSir(false), TxLane(s));
    SelInsert(p, k, ReadSir(false), CrLane(s));
  }

  lemma SirInserted(w: World, w': World, k: nat)
    requires Inv(w) && w' == w.(d := w'.d) && SchedInv(w'.d) && w'.d.socks == w.d.socks
    requires k <= |Pending(w.d)| && Pending(w'.d) == Pending(w.d)[..k] + [ReadSir(false)] + Pending(w.d)[k..]
    requires forall s :: CrFlying(w'.d, s) <==> CrFlying(w.d, s)
    requires forall i :: 0 <= i < |Pending(w.d)| ==> !Pending(w.d)[i].ReadSoc? && !Pending(w.d)[i].ClearIr?
    ensures Inv(w')
  {
    hide LInv, SchedInv, ServiceInv, Pending, CrFlying, Sel;
    var p, p' := Pending(w.d), Pending(w'.d);
    SirService(p, w.chips, k);
    InvIsShape(w);
    forall s: SockNo
      ensures LInv(s, LocalOf(w', s))
    {
      assert LInv(s, LocalOf(w, s));
      SirLanes(p, k, s);
      SirIsNoAck(p, k, s);
      assert LocalOf(w', s) == LocalOf(w, s);
    }
  }

  lemma SirIsNoAck(p: seq<Cmd>, k: nat, s: SockNo)
    requires k <= |p| && forall i :: 0 <= i < |p| ==> !p[i].ClearIr?
    ensures AckOf(p, s) == {} == AckOf(p[..k] + [ReadSir(false)] + p[k..], s)
  {
    var p' := p[..k] + [ReadSir(false)] + p[k..];
    assert p'[0] == if k == 0 then ReadSir(false) else p[0];
  }

  lemma SirService(p: seq<Cmd>, chips: seq<ChipSock>, k: nat)
    requires |chips| == SOCKETS && k <= |p| && forall i :: 0 <= i < |p| ==> !p[i].ReadSoc? && !p[i].ClearIr?
    ensures ServiceInv(p[..k] + [ReadSir(false)] + p[k..], chips)
  {
    var p' := p[..k] + [ReadSir(false)] + p[k..];
    assert forall i :: 0 <= i < |p'| ==> p'[i] == if i < k then p[i] else if i == k then ReadSir(false) else p[i - 1];
  }

  lemma InterruptKeeps(w: World, ok: bool)
    requires Inv(w) && InterruptCallback(w.d, ok).fails == w.d.fails
    requires forall i :: 0 <= i < |Pending(w.d)| ==> !Pending(w.d)[i].ReadSoc? && !Pending(w.d)[i].ClearIr?
    ensures Inv(w.(d := InterruptCallback(w.d, ok)))
  {
    hide Inv, PushFront, SchedInv;
    InvIsShape(w);
    PushFrontRoom(w.d, ReadSir(false), ok);
    var k := PushFrontPending(w.d, ReadSir(false), ok);
    SirInserted(w, w.(d := InterruptCallback(w.d, ok)), k);
  }

  /** The stale window in terms of the socket's view. */
  lemma StaleInView(w: World, sn: SockNo)
    requires Inv(w)
    ensures var l := LocalOf(w, sn); StaleRecv(w.d, sn) <==> RECV in l.ack && !l.sk.receiving && l.sk.reg.rxRsr == 0
  {
    hide LInv;
  }

  function AfterChipEvent(w: World, sn: SockNo, e: ChipEvent): World
    requires Shape(w) && CanHappen(w.chips[sn], e)
  {
    w.(chips := w.chips[sn := AfterEvent(w.chips[sn], e)],
       hist := w.hist[sn := w.hist[sn].(lateData := w.hist[sn].lateData || (e.Arrive? && StaleRecv(w.d, sn)))])
  }

  lemma FlagsOnlyRise(ch: ChipSock, e: ChipEvent)
    requires ValidChip(ch) && CanHappen(ch, e)
    ensures ch.ir <= AfterEvent(ch, e).ir && (ch.ir != {} ==> AfterEvent(ch, e).ir != {})
  {
    hide RingWrite, RingRead;
  }

  lemma ServiceRises(p: seq<Cmd>, chips: seq<ChipSock>, sn: SockNo, ch: ChipSock)
    requires |chips| == SOCKETS && ServiceInv(p, chips) && chips[sn].ir <= ch.ir
    ensures ServiceInv(p, chips[sn := ch])
  {
  }

  lemma ChipEventKeeps(w: World, sn: SockNo, e: ChipEvent)
    requires Inv(w) && Enabled(w, ChipStep(sn, e, false, true))
    ensures Inv(AfterChipEvent(w, sn, e))
  {
    hide LInv, AfterEvent, SchedInv, StaleRecv, ServiceInv;
    InvIsShape(w);
    var w' := AfterChipEvent(w, sn, e);
    assert LInv(sn, LocalOf(w, sn));
    StaleInView(w, sn);
    ChipKeeps(sn, LocalOf(w, sn), e);
    ChipStaysValid(sn, LocalOf(w, sn), e);
    assert LocalOf(w', sn) == AfterChip(LocalOf(w, sn), e);
    FlagsOnlyRise(w.chips[sn], e);
    ServiceRises(Pending(w.d), w.chips, sn, AfterEvent(w.chips[sn], e));
    forall s: SockNo
      ensures LInv(s, LocalOf(w', s))
    {
      assert LInv(s, LocalOf(w, s));
      if s != sn { assert LocalOf(w', s) == LocalOf(w, s); }
    }
  }

  lemma ChipStaysValid(s: SockNo, l: Local, e: ChipEvent)
    requires ValidChip(l.ch) && CanHappen(l.ch, e) && LInv(s, AfterChip(l, e))
    ensures ValidChip(AfterEvent(l.ch, e))
  {
    hide AfterEvent, RxInv, TxInv, CrInv, Awake;
  }

  lemma ChipStepKeeps(w: World, sn: nat, e: ChipEvent, seen: bool, ok: bool)
    requires Inv(w) && Clean(w) && Enabled(w, ChipStep(sn, e, seen, ok)) && Clean(Step(w, ChipStep(sn, e, seen, ok)))
    ensures Inv(Step(w, ChipStep(sn, e, seen, ok)))
  {
    hide LInv, Inv, AfterEvent, InterruptCallback, StaleRecv, SchedInv, ServiceInv;
    InvIsShape(w);
    var w1 := AfterChipEvent(w, sn, e);
    ChipEventKeeps(w, sn, e);
    if Sir(w.chips) == {} {
      ServiceOf(w);
      QuietService(Pending(w.d), w.chips);
      if Sir(w1.chips) != {} && seen { InterruptKeeps(w1, ok); }
    }
  }

  lemma ServiceOf(w: World)
    requires Inv(w)
    ensures ServiceInv(Pending(w.d), w.chips)
  {
    hide LInv;
  }
}
