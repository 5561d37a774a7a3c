/** The driver as it is written: callbacks and calls that update the command queue, the running
    command and the sockets in place. Each does what the function of the same routine in
    DriverSpec says. */
module Driver {
  import opened Bytes
  import opened Options
  import opened Queues
  import opened RingAlloc
  import opened Spi
  import opened DriverSpec
  import opened Lanes
  import opened Scheduling
  import opened World
  import opened Calls
  import opened Sockets

  lemma PushAllJoin(d: Drv, a: seq<Cmd>, b: seq<Cmd>, ok: bool)
    requires Wf(d)
    ensures PushAll(d, a + b, ok) == PushAll(PushAll(d, a, ok), b, ok)
    decreases |a|
  {
    hide PushBack;
    if a == [] {
      assert a + b == b;
    } else {
      assert (a + b)[1..] == a[1..] + b;
      PushAllJoin(PushBack(d, a[0], ok), a[1..], b, ok);
    }
  }

  /** Pushing looks at no socket field but the mirrored command register. */
  lemma PushBackSock(d: Drv, sn: SockNo, sk: Sock, c: Cmd, ok: bool)
    requires Wf(d) && sk.reg.cr == d.socks[sn].reg.cr
    ensures PushBack(SetSock(d, sn, sk), c, ok) == SetSock(PushBack(d, c, ok), sn, sk)
  {
  }

  lemma {:induction false} PushAllSock(d: Drv, sn: SockNo, sk: Sock, cs: seq<Cmd>, ok: bool)
    requires Wf(d) && sk.reg.cr == d.socks[sn].reg.cr
    ensures PushAll(SetSock(d, sn, sk), cs, ok) == SetSock(PushAll(d, cs, ok), sn, sk)
    decreases |cs|
  {
    hide PushBack;
    if cs != [] {
      PushBackSock(d, sn, sk, cs[0], ok);
      PushAllSock(PushBack(d, cs[0], ok), sn, sk, cs[1..], ok);
    }
  }

  lemma PushTwo(d: Drv, a: Cmd, b: Cmd, ok: bool)
    requires Wf(d)
    ensures PushAll(d, [a, b], ok) == PushBack(PushBack(d, a, ok), b, ok)
  {
    hide PushBack;
    assert [a, b][1..] == [b] && [b][1..] == [];
    assert PushAll(PushBack(d, a, ok), [b], ok) == PushBack(PushBack(d, a, ok), b, ok);
  }

  lemma PushThree(d: Drv, a: Cmd, b: Cmd, c: Cmd, ok: bool)
    requires Wf(d)
    ensures PushAll(d, [a, b, c], ok) == PushBack(PushBack(PushBack(d, a, ok), b, ok), c, ok)
  {
    hide PushBack;
    assert [a, b, c][1..] == [b, c];
    PushTwo(PushBack(d, a, ok), b, c, ok);
  }

  class W5500 {
    const commands: Queue<Cmd>
    const sockets: seq<Socket>
    var running: Cmd
    var dma: Dma
    var fails: nat

    /** All objects of all sockets. */
    ghost const objects: set<object>

    /** No object belongs to two sockets, or to a socket and the scheduler. */
    ghost predicate Apart() {
      && |sockets| == SOCKETS
      && this !in objects && commands !in objects && commands.data !in objects
      && (forall i :: 0 <= i < SOCKETS ==> sockets[i] in objects && sockets[i].objects <= objects)
      && forall i, j :: 0 <= i < j < SOCKETS ==> sockets[i].objects !! sockets[j].objects
    }

    ghost predicate Valid()
      reads this, commands, objects
    {
      && Apart() && commands.Valid() && commands.data.Length == COMMAND_QUEUE_SIZE
      && forall i :: 0 <= i < SOCKETS ==> sockets[i].Valid()
    }

    /** The records of the sockets. */
    ghost function Socks(): (s: seq<Sock>)
      requires Valid()
      reads this, commands, objects
      ensures |s| == SOCKETS
      ensures forall i :: 0 <= i < SOCKETS ==> s[i] == sockets[i].View()
    {
      seq(SOCKETS, i requires 0 <= i < SOCKETS && Valid() reads this, commands, objects => sockets[i].View())
    }

    ghost function View(): (d: Drv)
      requires Valid()
      reads this, commands, commands.data, objects
      ensures Wf(d) && |d.queue| <= COMMAND_QUEUE_SIZE
    {
      Drv(commands.Contents(), running, dma, Socks(), fails)
    }

    /** Only the scheduler's objects changed. */
    twostate lemma SocketsUntouched()
      requires old(Valid()) && commands.Valid()
      requires forall o :: o in objects ==> unchanged(o)
      ensures Valid() && Socks() == old(Socks())
    {
      forall i | 0 <= i < SOCKETS
        ensures sockets[i].Valid() && sockets[i].View() == old(sockets[i].View())
      {
      }
    }

    /** Only socket sn changed. */
    twostate lemma SocketChanged(sn: nat)
      requires sn < SOCKETS && old(Valid()) && sockets[sn].Valid()
      requires unchanged(this) && unchanged(commands) && unchanged(commands.data)
      requires forall o :: o in objects && o !in sockets[sn].objects ==> unchanged(o)
      ensures Valid() && View() == SetSock(old(View()), sn, sockets[sn].View())
    {
      forall i | 0 <= i < SOCKETS && i != sn
        ensures sockets[i].Valid() && sockets[i].View() == old(sockets[i].View())
      {
        if i < sn {
          assert sockets[i].objects !! sockets[sn].objects;
        } else {
          assert sockets[sn].objects !! sockets[i].objects;
        }
      }
      assert Socks() == old(Socks())[sn := sockets[sn].View()];
    }

    constructor (ss: seq<Socket>, ghost all: set<object>)
      requires |ss| == SOCKETS && (forall i, j :: 0 <= i < j < SOCKETS ==> ss[i].objects !! ss[j].objects)
      requires forall i :: 0 <= i < SOCKETS ==> ss[i].Valid() && ss[i] in all && ss[i].objects <= all
      ensures Valid() && sockets == ss && objects == all && fresh(commands) && fresh(commands.data)
      ensures View() == Drv([], Idle, NoDma, Socks(), 0)
    {
      commands := new Queue(COMMAND_QUEUE_SIZE);
      sockets, objects := ss, all;
      running, dma, fails := Idle, NoDma, 0;
    }

    // ---- Scheduler -------------------------------------------------------------------------

    method HandleSpiFailure()
      requires Valid()
      modifies this, commands, commands.data
      ensures Valid() && View() == DriverSpec.HandleSpiFailure(old(View()))
    {
      var pushed, _ := commands.PushFront(running);
      if !pushed { fails := fails + 1; }
      running, dma := Idle, NoDma;
      SocketsUntouched();
    }

    /** A front push while a command is running: the first-push callback does nothing. */
    method PushFrontWhileRunning(c: Cmd)
      requires Valid()
      modifies this, commands, commands.data
      ensures Valid() && View() == QueueFront(old(View()), c)
    {
      var pushed, _ := commands.PushFront(c);
      if !pushed { fails := fails + 1; }
      SocketsUntouched();
    }

    /** The next command becomes the running one. */
    method PopRunning() returns (popped: bool)
      requires Valid()
      modifies this, commands, commands.data
      ensures Valid() && popped == (old(View()).queue != [])
      ensures View() == if popped then old(View()).(running := old(View()).queue[0], queue := old(View()).queue[1..])
                        else old(View()).(running := Idle, dma := NoDma)
    {
      var next := commands.PopFront();
      popped := next != None;
      if popped {
        running := next.value;
      } else {
        running, dma := Idle, NoDma;
      }
      SocketsUntouched();
    }

    method SetDma(d: Dma)
      requires Valid()
      modifies this
      ensures Valid() && View() == old(View()).(dma := d)
    {
      dma := d;
      SocketsUntouched();
    }

    /** dmaTXCompleteCallback. */
    method StartNext(ok: bool)
      requires Valid()
      modifies this, commands, commands.data
      ensures Valid() && View() == Start(old(View()), ok)
    {
      var popped := PopRunning();
      if !popped { return; }
      if !ok {
        HandleSpiFailure();
      } else if IsCrWrite(running) {
        if sockets[running.sn].reg.cr != 0 {
          SetDma(TxRx);
          PushFrontWhileRunning(running);
        } else {
          SetDma(Tx);
          PushFrontWhileRunning(ReadCr(running.sn));
        }
      } else {
        SetDma(TransferOf(running));
      }
    }

    /** kickStartCommands. */
    method KickStart(ok: bool)
      requires Valid()
      modifies this, commands, commands.data
      ensures Valid() && View() == DriverSpec.KickStart(old(View()), ok)
    {
      if running.Idle? { StartNext(ok); }
    }

    /** queuePushBack with its first-push callback. */
    method TryPushBack(c: Cmd, ok: bool) returns (pushed: bool)
      requires Valid()
      modifies this, commands, commands.data
      ensures Valid() && pushed == (|old(View()).queue| < COMMAND_QUEUE_SIZE)
      ensures View() == if pushed then PushBack(old(View()), c, ok) else old(View())
    {
      hide Start;
      var first;
      pushed, first := commands.PushBack(c);
      SocketsUntouched();
      if first { KickStart(ok); }
    }

    method CountFailure()
      requires Valid()
      modifies this
      ensures Valid() && View() == old(View()).(fails := old(View()).fails + 1)
    {
      fails := fails + 1;
      SocketsUntouched();
    }

    method EnqueueBack(c: Cmd, ok: bool)
      requires Valid()
      modifies this, commands, commands.data
      ensures Valid() && View() == PushBack(old(View()), c, ok)
    {
      var pushed := TryPushBack(c, ok);
      if !pushed { CountFailure(); }
    }

    // ---- Sending and receiving -------------------------------------------------------------

    /** The pushes of sendPendingData for the oldest segment. */
    method PushSendBatch(sn: nat, seg: Seg, reg: Regs, ok: bool)
      requires Valid() && sn < SOCKETS
      requires var sk := View().socks[sn];
               sk.txq != [] && sk.txq[0] == seg && sk.reg == reg && !sk.sending && Open(reg.sr)
      requires seg.start + 3 <= seg.end <= seg.start + 3 + reg.txFsr
      modifies this, commands, commands.data, objects
      ensures Valid() && View() == DriverSpec.SendPending(old(View()), sn, ok)
    {
      hide PushBack, Put, Header, SetU16, DriverSpec.SendPending, Valid, View;
      ghost var before := View();
      var len := seg.end - seg.start;
      if reg.mode == Udp {
        EnqueueBack(WriteReg(sn, Sn_DIPR, seg.addr), ok);
        EnqueueBack(WriteReg(sn, Sn_DPORT, SetU16(seg.port)), ok);
      }
      ghost var addressed := View();
      PutTxHeader(sn, seg.start, Header(reg.txWr, TxBlock(sn), true));
      EnqueueBack(WriteBuf(sn, seg.start, len), ok);
      EnqueueBack(WriteReg(sn, Sn_TX_WR, SetU16(reg.txWr + len - 3)), ok);
      EnqueueBack(WriteReg(sn, Sn_CR, [CR_SEND]), ok);
      SetSending(sn);
      SendInOrder(before, sn, before.socks[sn], addressed, ok);
    }

    /** sendPendingData. */
    method SendPending(sn: nat, ok: bool)
      requires Valid() && sn < SOCKETS
      modifies this, commands, commands.data, objects
      ensures Valid() && View() == DriverSpec.SendPending(old(View()), sn, ok)
    {
      hide PushBack, Put, Header, SetU16, DriverSpec.SendPending;
      NothingToSend(View(), sn, View().socks[sn], ok);
      var socket := sockets[sn];
      if socket.sending || !Open(socket.reg.sr) { return; }
      var front := socket.txq.PeekFront();
      if front == None { return; }
      var seg := front.value;
      if seg.end < seg.start + 3 || seg.end - seg.start - 3 > socket.reg.txFsr { return; }
      PushSendBatch(sn, seg, socket.reg, ok);
    }

    method PutTxHeader(sn: nat, start: nat, h: seq<byte>)
      requires Valid() && sn < SOCKETS
      modifies objects
      ensures Valid()
      ensures var sk := old(View()).socks[sn]; View() == SetSock(old(View()), sn, sk.(txBuf := Put(sk.txBuf, start, h)))
    {
      hide Put;
      sockets[sn].PutTxHeader(start, h);
      SocketChanged(sn);
    }

    method SetSending(sn: nat)
      requires Valid() && sn < SOCKETS
      modifies objects
      ensures Valid() && View() == SetSock(old(View()), sn, old(View()).socks[sn].(sending := true))
    {
      sockets[sn].SetSending(true);
      SocketChanged(sn);
    }

    /** The pushes of receivePendingData for a place in the buffer. */
    method PushReceiveBatch(sn: nat, at: int, rsr: u16, rxRd: u16, ok: bool)
      requires Valid() && sn < SOCKETS
      requires var sk := View().socks[sn];
               && !sk.receiving && Open(sk.reg.sr) && sk.reg.rxRsr == rsr > 0 && sk.reg.rxRd == rxRd
               && -1 != at == BufferIndex(sk.rxq, |sk.rxBuf|, ToU16(rsr as int + 3))
      modifies this, commands, commands.data, objects
      ensures Valid() && View() == DriverSpec.ReceivePending(old(View()), sn, ok)
    {
      hide PushBack, Put, Header, SetU16, BufferIndex, Full, DriverSpec.ReceivePending, Valid, View;
      ghost var before := View();
      var n: int, rd: int := rsr, rxRd;
      PutRxHeader(sn, at, Header(rxRd, RxBlock(sn), false));
      ghost var placed := View();
      EnqueueBack(ReadBuf(sn, at, ToU16(n + 3)), ok);
      EnqueueBack(WriteReg(sn, Sn_RX_RD, SetU16(rd + n)), ok);
      EnqueueBack(WriteReg(sn, Sn_CR, [CR_RECV]), ok);
      EnqueueBack(WriteReg(sn, Sn_CR, [CR_RECV]), ok);
      EnqueueBack(CheckRcv(sn), ok);
      SetReceiving(sn, true);
      ReceiveInOrder(before, sn, at, placed, ok);
    }

    /** receivePendingData. */
    method ReceivePending(sn: nat, ok: bool)
      requires Valid() && sn < SOCKETS
      modifies this, commands, commands.data, objects
      ensures Valid() && View() == DriverSpec.ReceivePending(old(View()), sn, ok)
    {
      hide PushBack, Put, Header, SetU16, BufferIndex, Full, DriverSpec.ReceivePending;
      NothingToReceive(View(), sn, View().socks[sn], ok);
      var socket := sockets[sn];
      if socket.receiving || !Open(socket.reg.sr) { return; }
      var rsr: int := socket.reg.rxRsr;
      if rsr > 0 {
        var at := PlaceFor(socket.rxq, socket.rxBuf.Length, ToU16(rsr + 3));
        if at != -1 { PushReceiveBatch(sn, at, rsr, socket.reg.rxRd, ok); }
      }
    }

    method PutRxHeader(sn: nat, at: int, h: seq<byte>)
      requires Valid() && sn < SOCKETS
      modifies objects
      ensures Valid()
      ensures var sk := old(View()).socks[sn];
              View() == SetSock(old(View()), sn, sk.(rxBuf := Put(sk.rxBuf, at, h), clash := sk.clash || Full(sk.rxq)))
    {
      hide Put, Full;
      sockets[sn].PutRxHeader(at, h);
      SocketChanged(sn);
    }

    method SetReceiving(sn: nat, b: bool)
      requires Valid() && sn < SOCKETS
      modifies objects
      ensures Valid() && View() == SetSock(old(View()), sn, old(View()).socks[sn].(receiving := b))
    {
      sockets[sn].SetReceiving(b);
      SocketChanged(sn);
    }

    // ---- Completion of a transfer ------------------------------------------------------------

    /** READ_SIR: a READ_SOC to the front for every flagged socket. */
    method ReadSocs(flagged: set<nat>)
      requires Valid()
      modifies this, commands, commands.data
      ensures Valid() && View() == PushSocs(old(View()), flagged, 0)
    {
      hide Valid, View;
      for i := 0 to SOCKETS
        invariant Valid() && PushSocs(View(), flagged, i) == PushSocs(old(View()), flagged, 0)
      {
        if i in flagged { PushFrontWhileRunning(ReadSoc(i)); }
      }
    }

    method DropSent(sn: nat)
      requires Valid() && sn < SOCKETS
      modifies objects
      ensures Valid() && View() == SetSock(old(View()), sn, PopSent(old(View()).socks[sn]))
    {
      hide PopSent;
      sockets[sn].PopSent();
      SocketChanged(sn);
    }

    method DropAllSends(sn: nat)
      requires Valid() && sn < SOCKETS
      modifies objects
      ensures Valid() && View() == SetSock(old(View()), sn, old(View()).socks[sn].(sending := false, txq := []))
    {
      sockets[sn].ClearSends();
      SocketChanged(sn);
    }

    /** READ_SOC on the freshly read registers. */
    method HandleSoc(sn: nat)
      requires Valid() && sn < SOCKETS
      modifies this, commands, commands.data, objects
      ensures Valid() && View() == DriverSpec.HandleSoc(old(View()), sn)
    {
      hide DriverSpec.SendPending, DriverSpec.ReceivePending, PopSent;
      var ir := sockets[sn].reg.ir;
      if RECV in ir { ReceivePending(sn, true); }
      if TIMEOUT in ir {
        if sockets[sn].reg.mode == Tcp {
          DropAllSends(sn);
        } else {
          DropSent(sn);
          SendPending(sn, true);
        }
      }
      if SENDOK in ir {
        DropSent(sn);
        SendPending(sn, true);
      }
      PushFrontWhileRunning(ClearIr(sn, ir));
    }

    method SetReg(sn: nat, reg: Regs)
      requires Valid() && sn < SOCKETS
      modifies objects
      ensures Valid() && View() == SetSock(old(View()), sn, old(View()).socks[sn].(reg := reg))
    {
      sockets[sn].SetReg(reg);
      SocketChanged(sn);
    }

    /** READ_REG: one mirrored register byte. */
    method RegisterRead(sn: nat, r: Reply)
      requires Valid() && running.ReadReg? && running.sn == sn
      modifies objects
      ensures Valid() && View() == DriverSpec.DmaRxComplete(old(View()), r)
    {
      if sn < SOCKETS {
        var reg := sockets[sn].reg;
        if r.CrByte? { SetReg(sn, reg.(cr := r.cr)); }
        else if r.SrByte? { SetReg(sn, reg.(sr := r.sr)); }
      }
    }

    /** READ_BUF: the bytes are in place and the segment is queued. */
    method BufferRead(sn: nat, start: int, len: nat, bytes: seq<byte>)
      requires Valid() && sn < SOCKETS && running == ReadBuf(sn, start, len)
      modifies this, objects
      ensures Valid() && View() == DriverSpec.DmaRxComplete(old(View()), Bytes(bytes))
    {
      hide Put;
      var queued := sockets[sn].BufferRead(start, len, bytes);
      SocketChanged(sn);
      if !queued { CountFailure(); }
    }

    /** READ_SOC: all registers of a socket, then what they call for. */
    method SocketRead(sn: nat, regs: Regs)
      requires Valid() && sn < SOCKETS && running == ReadSoc(sn)
      modifies this, commands, commands.data, objects
      ensures Valid() && View() == DriverSpec.DmaRxComplete(old(View()), SocRegs(regs))
    {
      hide DriverSpec.HandleSoc;
      SetReg(sn, regs);
      HandleSoc(sn);
    }

    /** CHECK_RCV: the batch is over; fetch what has come in meanwhile. */
    method ReceptionChecked(sn: nat, rsr: u16, rd: u16)
      requires Valid() && running == CheckRcv(sn) && sn < SOCKETS
      modifies this, commands, commands.data, objects
      ensures Valid() && View() == DriverSpec.DmaRxComplete(old(View()), RcvRegs(rsr, rd))
    {
      hide DriverSpec.ReceivePending;
      ghost var before := View();
      var reg := sockets[sn].reg.(rxRsr := rsr, rxRd := rd);
      SetReg(sn, reg);
      SetReceiving(sn, false);
      assert View() == SetSock(before, sn, before.socks[sn].(reg := reg, receiving := false));
      ReceivePending(sn, true);
    }

    /** CHECK_TX_FSR: send what now has room. */
    method SpaceChecked(sn: nat, fsr: u16, wr: u16)
      requires Valid() && running == CheckTxFsr(sn) && sn < SOCKETS
      modifies this, commands, commands.data, objects
      ensures Valid() && View() == DriverSpec.DmaRxComplete(old(View()), TxRegs(fsr, wr))
    {
      hide DriverSpec.SendPending;
      SetReg(sn, sockets[sn].reg.(txFsr := fsr, txWr := wr));
      SendPending(sn, true);
    }

    /** dmaRXCompleteCallback. */
    method DmaRxComplete(r: Reply)
      requires Valid()
      modifies this, commands, commands.data, objects
      ensures Valid() && View() == DriverSpec.DmaRxComplete(old(View()), r)
    {
      hide DriverSpec.SendPending, DriverSpec.ReceivePending, DriverSpec.HandleSoc, PushSocs, Put, Valid;
      match running {
        case ReadReg(sn, off, count, back) => RegisterRead(sn, r);
        case ReadBuf(sn, start, len) => if sn < SOCKETS && r.Bytes? { BufferRead(sn, start, len, r.bytes); }
        case ReadSir(_) => if r.SirBits? { ReadSocs(r.sockets); }
        case ReadSoc(sn) => if sn < SOCKETS && r.SocRegs? { SocketRead(sn, r.regs); }
        case CheckRcv(sn) => if sn < SOCKETS && r.RcvRegs? { ReceptionChecked(sn, r.rsr, r.rd); }
        case CheckTxFsr(sn) => if sn < SOCKETS && r.TxRegs? { SpaceChecked(sn, r.fsr, r.wr); }
        case _ =>
      }
    }

    /** wiznetSPITxRxCompleteCallback and wiznetSPITxCompleteCallback. */
    method TransferComplete(r: Reply, ok: bool)
      requires Valid()
      modifies this, commands, commands.data, objects
      ensures Valid() && View() == DriverSpec.TransferComplete(old(View()), r, ok)
    {
      hide DriverSpec.DmaRxComplete, Start, Valid;
      if dma == TxRx { DmaRxComplete(r); }
      StartNext(ok);
    }

    // ---- Timer and INT pin ---------------------------------------------------------------------

    method IsEstablished(sn: nat) returns (established: bool)
      requires Valid() && sn < SOCKETS
      ensures established == (View().socks[sn].reg.sr == Established)
    {
      established := sockets[sn].reg.sr == Established;
    }

    method CheckTxSpace(ok: bool)
      requires Valid()
      modifies this, commands, commands.data
      ensures Valid() && View() == PushTxChecks(old(View()), 0, ok)
    {
      hide PushBack, Valid, View;
      for sn := 0 to SOCKETS
        invariant Valid() && PushTxChecks(View(), sn, ok) == PushTxChecks(old(View()), 0, ok)
      {
        var established := IsEstablished(sn);
        if established { EnqueueBack(CheckTxFsr(sn), ok); }
      }
    }

    method TimerCallback(ok: bool)
      requires Valid()
      modifies this, commands, commands.data
      ensures Valid() && View() == DriverSpec.TimerCallback(old(View()), ok)
    {
      hide PushBack, Start, PushTxChecks;
      if running.Idle? && !commands.IsEmpty() { StartNext(ok); }
      CheckTxSpace(ok);
      EnqueueBack(ReadSir(true), ok);
    }

    method InterruptCallback(ok: bool)
      requires Valid()
      modifies this, commands, commands.data
      ensures Valid() && View() == DriverSpec.InterruptCallback(old(View()), ok)
      ensures var before := old(View());
              SchedInv(before) && |before.queue| < COMMAND_QUEUE_SIZE ==>
                Pending(View()) == if before.running.Idle? || Polling(before) then [ReadSir(false)] + Pending(before)
                                   else [Pending(before)[0], ReadSir(false)] + Pending(before)[1..]
    {
      ghost var before := View();
      if SchedInv(before) && |before.queue| < COMMAND_QUEUE_SIZE {
        ghost var k := PushFrontPending(before, ReadSir(false), ok);
      }
      hide Start, SchedInv, Pending, Polling;
      var pushed, first := commands.PushFront(ReadSir(false));
      SocketsUntouched();
      if first { KickStart(ok); }
      if !pushed { CountFailure(); }
    }

    // ---- Calls ---------------------------------------------------------------------------------

    /** Segment production shared by send and sendto, then sendPendingData. */
    method EnqueueAndSend(sn: nat, buf: seq<byte>, addr: seq<byte>, port: u16, ok: bool) returns (ret: Ret)
      requires Valid() && sn < SOCKETS && |buf| < 65536
      modifies this, commands, commands.data, objects
      ensures Valid()
      ensures var (sk, r) := Enqueue(old(View()).socks[sn], buf, addr, port);
              ret == r && View() == DriverSpec.SendPending(SetSock(old(View()), sn, sk), sn, ok)
    {
      hide DriverSpec.SendPending, Enqueue;
      ret := sockets[sn].Enqueue(buf, addr, port);
      SocketChanged(sn);
      SendPending(sn, ok);
    }

    /** The payload exceeds the chip's or the driver's buffer. */
    method Exceeds(sn: nat, buf: seq<byte>) returns (large: bool)
      requires Valid() && sn < SOCKETS
      ensures large == TooLarge(View().socks[sn], buf)
    {
      large := sockets[sn].txKb * 1024 < |buf| || sockets[sn].txBuf.Length < |buf| + 3;
    }

    method Send(sn: nat, buf: seq<byte>, ok: bool) returns (ret: Ret)
      requires Valid() && |buf| < 65536
      modifies this, commands, commands.data, objects
      ensures Valid() && (View(), ret) == DriverSpec.Send(old(View()), sn, buf, ok)
    {
      hide DriverSpec.SendPending, Enqueue, TooLarge;
      if sn >= SOCKETS || buf == [] { return INVALID_PARAM; }
      if sockets[sn].reg.sr != Established && sockets[sn].reg.sr != CloseWait { return INVALID_STATE; }
      var large := Exceeds(sn, buf);
      if large { return PACK_TOO_LRG; }
      ret := EnqueueAndSend(sn, buf, [], 0, ok);
    }

    method SendTo(sn: nat, buf: seq<byte>, addr: seq<byte>, port: u16, ok: bool) returns (ret: Ret)
      requires Valid() && |buf| < 65536
      modifies this, commands, commands.data, objects
      ensures Valid() && (View(), ret) == DriverSpec.SendTo(old(View()), sn, buf, addr, port, ok)
    {
      hide DriverSpec.SendPending, Enqueue, TooLarge;
      if sn >= SOCKETS || buf == [] || port == 0 { return INVALID_PARAM; }
      if sockets[sn].reg.sr != UdpOpen { return INVALID_STATE; }
      var large := Exceeds(sn, buf);
      if large { return PACK_TOO_LRG; }
      ret := EnqueueAndSend(sn, buf, addr, port, ok);
    }

    method Recv(sn: nat, len: u16, ok: bool) returns (data: seq<byte>)
      requires Valid()
      modifies this, commands, commands.data, objects
      ensures Valid() && (View(), data) == DriverSpec.Recv(old(View()), sn, len, ok)
      ensures sn < SOCKETS && ReceiveRing(old(View()).socks[sn]) ==>
                exists k :: HandsOut(old(View()).socks[sn], len, View().socks[sn].rxq, data, k)
    {
      hide DriverSpec.ReceivePending, RecvCopy, ReceiveRing, HandsOut;
      data := [];
      ghost var before := View();
      if sn < SOCKETS && ReceiveRing(before.socks[sn]) { ghost var k := RecvHandsOut(before, sn, len, ok); }
      if sn >= SOCKETS || len == 0 { return; }
      data := sockets[sn].CopyOut(len);
      SocketChanged(sn);
      ReceivePending(sn, ok);
    }

    method RecvFrom(sn: nat, len: u16, ok: bool) returns (dg: Option<Datagram>)
      requires Valid()
      modifies this, commands, commands.data, objects
      ensures Valid() && (View(), dg) == DriverSpec.RecvFrom(old(View()), sn, len, ok)
    {
      hide DriverSpec.ReceivePending, TakeDatagram;
      dg := None;
      if sn >= SOCKETS || len == 0 { return; }
      dg := sockets[sn].TakeDatagram(len);
      SocketChanged(sn);
      ReceivePending(sn, ok);
    }

    method EnqueueSetReg(sn: nat, off: u16, data: seq<byte>, ok: bool) returns (success: bool)
      requires Valid()
      modifies this, commands, commands.data
      ensures Valid() && (View(), success) == DriverSpec.EnqueueSetReg(old(View()), sn, off, data, ok)
      ensures success <==> |data| <= 7 && |old(View()).queue| < 1000
    {
      hide PushBack;
      if |data| > 7 { return false; }
      success := TryPushBack(WriteReg(sn, off, data), ok);
    }

    method EnqueueGetReg(sn: nat, off: u16, count: nat, ok: bool) returns (success: bool)
      requires Valid()
      modifies this, commands, commands.data
      ensures Valid() && (View(), success) == DriverSpec.EnqueueGetReg(old(View()), sn, off, count, ok)
      ensures success <==> count <= 7 && |old(View()).queue| < 1000
    {
      hide PushBack;
      if count > 7 { return false; }
      success := TryPushBack(ReadReg(sn, off, count, true), ok);
    }
  }

  lemma NothingToSend(d: Drv, sn: SockNo, sk: Sock, ok: bool)
    requires Wf(d) && sk == d.socks[sn]
    ensures sk.sending || !Open(sk.reg.sr) || sk.txq == []
            || sk.txq[0].end < sk.txq[0].start + 3 || sk.txq[0].end - sk.txq[0].start - 3 > sk.reg.txFsr
            ==> DriverSpec.SendPending(d, sn, ok) == d
  {
    hide PushBack, SendBatch, Put, Header;
    assert d.socks[sn := sk] == d.socks;
  }

  lemma NothingToReceive(d: Drv, sn: SockNo, sk: Sock, ok: bool)
    requires Wf(d) && sk == d.socks[sn]
    ensures sk.receiving || !Open(sk.reg.sr) || sk.reg.rxRsr == 0
            || BufferIndex(sk.rxq, |sk.rxBuf|, ToU16(sk.reg.rxRsr + 3)) == -1
            ==> DriverSpec.ReceivePending(d, sn, ok) == d
  {
    hide PushBack, RecvBatch, Put, Header, BufferIndex;
    assert d.socks[sn := sk] == d.socks;
  }

  /** The pushes of a send batch, in order, around the writing of the header and the flag. */
  lemma SendInOrder(d: Drv, sn: SockNo, sk: Sock, addressed: Drv, ok: bool)
    requires Wf(d) && sk == d.socks[sn] && !sk.sending && Open(sk.reg.sr) && sk.txq != []
    requires sk.txq[0].start + 3 <= sk.txq[0].end <= sk.txq[0].start + 3 + sk.reg.txFsr
    requires var g := sk.txq[0];
             addressed == if sk.reg.mode == Udp
                          then PushBack(PushBack(d, WriteReg(sn, Sn_DIPR, g.addr), ok),
                                        WriteReg(sn, Sn_DPORT, SetU16(g.port)), ok)
                          else d
    ensures var g, reg := sk.txq[0], sk.reg;
            var sk1 := sk.(txBuf := Put(sk.txBuf, g.start, Header(reg.txWr, TxBlock(sn), true)));
            var len := g.end - g.start;
            var d1 := PushBack(PushBack(PushBack(SetSock(addressed, sn, sk1), WriteBuf(sn, g.start, len), ok),
                                        WriteReg(sn, Sn_TX_WR, SetU16(reg.txWr + len - 3)), ok),
                               WriteReg(sn, Sn_CR, [CR_SEND]), ok);
            SetSock(d1, sn, d1.socks[sn].(sending := true)) == DriverSpec.SendPending(d, sn, ok)
  {
    hide PushBack, Put, Header, SetU16;
    var g, reg := sk.txq[0], sk.reg;
    var sk1 := sk.(txBuf := Put(sk.txBuf, g.start, Header(reg.txWr, TxBlock(sn), true)));
    var len := g.end - g.start;
    var a := if reg.mode == Udp then [WriteReg(sn, Sn_DIPR, g.addr), WriteReg(sn, Sn_DPORT, SetU16(g.port))] else [];
    var b0, b1, b2 := WriteBuf(sn, g.start, len), WriteReg(sn, Sn_TX_WR, SetU16(reg.txWr + len - 3)),
        WriteReg(sn, Sn_CR, [CR_SEND]);
    PushTwo(d, WriteReg(sn, Sn_DIPR, g.addr), WriteReg(sn, Sn_DPORT, SetU16(g.port)), ok);
    assert addressed == PushAll(d, a, ok);
    PushThree(SetSock(addressed, sn, sk1), b0, b1, b2, ok);
    var b := [b0, b1, b2];
    PushAllSock(addressed, sn, sk1, b, ok);
    PushAllJoin(d, a, b, ok);
    PushAllSock(d, sn, sk1.(sending := true), a + b, ok);
    assert SendPlan(sk, sn) == (sk1.(sending := true), a + b);
  }

  lemma ReceiveInOrder(d: Drv, sn: SockNo, at: int, placed: Drv, ok: bool)
    requires Wf(d) && !d.socks[sn].receiving && Open(d.socks[sn].reg.sr) && d.socks[sn].reg.rxRsr > 0
    requires var sk := d.socks[sn];
             && -1 != at == BufferIndex(sk.rxq, |sk.rxBuf|, ToU16(sk.reg.rxRsr + 3))
             && placed == SetSock(d, sn, sk.(rxBuf := Put(sk.rxBuf, at, Header(sk.reg.rxRd, RxBlock(sn), false)),
                                             clash := sk.clash || Full(sk.rxq)))
    ensures var rsr, rxRd := d.socks[sn].reg.rxRsr, d.socks[sn].reg.rxRd;
            var d1 := PushBack(PushBack(PushBack(PushBack(PushBack(placed, ReadBuf(sn, at, ToU16(rsr + 3)), ok),
                                                                   WriteReg(sn, Sn_RX_RD, SetU16(rxRd + rsr)), ok),
                                                          WriteReg(sn, Sn_CR, [CR_RECV]), ok),
                                                 WriteReg(sn, Sn_CR, [CR_RECV]), ok),
                               CheckRcv(sn), ok);
            SetSock(d1, sn, d1.socks[sn].(receiving := true)) == DriverSpec.ReceivePending(d, sn, ok)
  {
    hide PushBack, Put, Header, SetU16, BufferIndex, Full;
    var rsr: int, rxRd: int := d.socks[sn].reg.rxRsr, d.socks[sn].reg.rxRd;
    var sk1 := placed.socks[sn];
    var a := [ReadBuf(sn, at, ToU16(rsr + 3)), WriteReg(sn, Sn_RX_RD, SetU16(rxRd + rsr))];
    var b := [WriteReg(sn, Sn_CR, [CR_RECV]), WriteReg(sn, Sn_CR, [CR_RECV]), CheckRcv(sn)];
    PushTwo(placed, a[0], a[1], ok);
    PushThree(PushAll(placed, a, ok), b[0], b[1], b[2], ok);
    PushAllJoin(placed, a, b, ok);
    PushAllSock(d, sn, sk1, a + b, ok);
    PushAllSock(d, sn, sk1.(receiving := true), a + b, ok);
    assert RecvBatch(sn, at, rsr, rxRd) == a + b;
  }
}
