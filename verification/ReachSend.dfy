/** Runs on the send side: histories of TCP socket 0, event by event, the other sockets being
    quiet. One leads to a payload that waits although the chip has room for it, one to a
    receiver that is sent bytes of the wrong payload. */
module ReachSend {
  import opened Bytes
  import opened Spi
  import opened RingAlloc
  import opened DriverSpec
  import opened Chip
  import opened World
  import opened Lanes
  import opened LocalInv
  import opened TxSteps
  import opened Invariant
  import opened Runs
  import opened Waiting
  import opened Reach

  // ---- The scene ---------------------------------------------------------------------------------

  /** What the scheduler does, and where the send side of socket 0 stands: mirrors (cr, sr, fsr,
      mwr), sending state, queue and buffer; in the chip its status, command register, flags,
      pointers, memory and sent payloads; and the accepted payloads. */
  datatype Sight = Sight(running: Cmd, dma: Dma, queue: seq<Cmd>,
                         cr: byte, sr: Status, fsr: u16, mwr: u16, sending: bool,
                         txq: seq<Seg>, txBuf: seq<byte>, clash: bool,
                         chipSr: Status, chipCr: byte, ir: set<Flag>, busy: bool, free: nat, rd: nat, wr: nat,
                         mem: seq<byte>, sent: seq<Msg>, accepted: seq<Msg>)

  predicate Calm(sk: Sock, ch: ChipSock) {
    !sk.clash && ch.ir == {}
  }

  predicate Driver0(x: Sight, sk: Sock) {
    && sk.reg.mode == Tcp && sk.txKb == 2 && |sk.txBuf| <= 32767
    && sk.reg.cr == x.cr && sk.reg.sr == x.sr && sk.reg.txFsr == x.fsr && sk.reg.txWr == x.mwr
    && sk.sending == x.sending && sk.txq == x.txq && sk.txBuf == x.txBuf && sk.clash == x.clash
  }

  predicate Chip0(x: Sight, ch: ChipSock) {
    && ch.mode == Tcp && ch.sr == x.chipSr && ch.cr == x.chipCr && ch.ir == x.ir && ch.transmitting == x.busy
    && ch.txFree == x.free && ch.txRd == x.rd && ch.txWr == x.wr && ch.txMem == x.mem && |ch.txMem| == 2048
       && ch.sent == x.sent
  }

  ghost predicate Shows(w: World, x: Sight) {
    && Reachable(w) && Shape(w) && w.d.fails == 0 && !w.pollFailed
    && w.d.running == x.running && w.d.dma == x.dma && w.d.queue == x.queue
    && Driver0(x, w.d.socks[0]) && Chip0(x, w.chips[0]) && w.hist[0].accepted == x.accepted
    && forall s :: 1 <= s < SOCKETS ==> Calm(w.d.socks[s], w.chips[s])
  }

  /** Only socket 0 changes, and the step leads to the next scene. */
  lemma ShowsNext(w: World, ev: Event, x: Sight)
    requires Reachable(w) && Shape(w) && Enabled(w, ev)
             && (forall s :: 1 <= s < SOCKETS ==> Calm(w.d.socks[s], w.chips[s]))
    requires var w' := Step(w, ev);
             && Wf(w'.d) && w'.d.fails == 0 && !w'.pollFailed && |w'.chips| == SOCKETS == |w'.hist|
             && w'.d.running == x.running && w'.d.dma == x.dma && w'.d.queue == x.queue
             && w'.d.socks == w.d.socks[0 := w'.d.socks[0]] && w'.chips == w.chips[0 := w'.chips[0]]
             && ValidChip(w'.chips[0]) && Driver0(x, w'.d.socks[0]) && Chip0(x, w'.chips[0])
                && w'.hist[0].accepted == x.accepted
    ensures Shows(Step(w, ev), x)
  {
    hide Step, Enabled, Driver0, Chip0, ValidChip, Reachable;
    ReachOn(w, ev);
  }

  // ---- Helpers -----------------------------------------------------------------------------------

  lemma FlagsOf(w: World, x: Sight)
    requires Shows(w, x)
    ensures Sir(w.chips) == if x.ir == {} then {} else {0}
  {
    hide Reachable, ValidChip, Driver0;
    assert forall s :: s in Sir(w.chips) ==> s == 0;
    if x.ir != {} { assert 0 in Sir(w.chips); }
  }

  lemma PushAllIdle(d: Drv, cs: seq<Cmd>)
    requires Wf(d) && d.running == Idle && d.dma == NoDma && d.queue == [] && 0 < |cs| <= COMMAND_QUEUE_SIZE
    requires !cs[0].Idle? && !IsCrWrite(cs[0])
    ensures PushAll(d, cs, true) == d.(running := cs[0], dma := TransferOf(cs[0]), queue := cs[1..])
  {
    hide PushAll;
    var d1 := PushBack(d, cs[0], true);
    assert ([] + [cs[0]])[1..] == [];
    assert d1 == d.(running := cs[0], dma := TransferOf(cs[0]));
    PushAllBusy(d1, cs[1..]);
    assert [] + cs[1..] == cs[1..];
    PushAllUnfolds(d, cs);
  }

  lemma PushAllUnfolds(d: Drv, cs: seq<Cmd>)
    requires Wf(d) && cs != []
    ensures PushAll(d, cs, true) == PushAll(PushBack(d, cs[0], true), cs[1..], true)
  {
    hide PushBack;
  }

  /** The rest of a batch once its buffer transfer has started. */
  function Rest3(wr: nat, n: nat): seq<Cmd> {
    [WriteReg(0, Sn_TX_WR, SetU16(ToU16(wr) + n)), CrWrite(0, CR_SEND)]
  }

  function Hdr(wr: nat): seq<byte> {
    Header(ToU16(wr), TxBlock(0), true)
  }

  /** The plan for a head of n payload bytes that fits. */
  lemma PlanSends(sk: Sock, g: Seg, wr: nat, n: nat)
    requires !sk.sending && Open(sk.reg.sr) && sk.reg.mode == Tcp && sk.txq != [] && sk.txq[0] == g
    requires g.end == g.start + n + 3 && n <= sk.reg.txFsr && sk.reg.txWr == ToU16(wr)
    ensures SendPlan(sk, 0) == (sk.(txBuf := Put(sk.txBuf, g.start, Hdr(wr)), sending := true),
                                [WriteBuf(0, g.start, n + 3)] + Rest3(wr, n))
  {
    hide Put, Header, SetU16, ToU16;
    assert [] + ([WriteBuf(0, g.start, n + 3)] + Rest3(wr, n)) == [WriteBuf(0, g.start, n + 3)] + Rest3(wr, n);
    assert SendBatch(0, Tcp, g, sk.reg.txWr) == [WriteBuf(0, g.start, n + 3)] + Rest3(wr, n);
  }

  // ---- Calls -------------------------------------------------------------------------------------

  /** What send does with a payload that passes the checks and finds a place. */
  lemma SendPlaces(d: Drv, data: seq<byte>, at: nat)
    requires Wf(d) && 0 < |data| && d.socks[0].txKb == 2 && |data| <= 2048 && |data| + 3 <= |d.socks[0].txBuf| <= 32767
    requires d.socks[0].reg.sr == Established || d.socks[0].reg.sr == CloseWait
    requires |d.socks[0].txq| < SOCKET_QUEUE_SIZE && at + |data| + 3 <= |d.socks[0].txBuf|
    requires BufferIndex(d.socks[0].txq, |d.socks[0].txBuf|, |data| + 3) == at
    ensures var sk := d.socks[0];
            var sk1 := sk.(txq := sk.txq + [Seg(at, at + |data| + 3, [], 0)], txBuf := Put(sk.txBuf, at + 3, data),
                           clash := sk.clash || Full(sk.txq));
            Send(d, 0, data, true) == (SendPending(SetSock(d, 0, sk1), 0, true), SOCK_OK)
  {
    hide SendPending, BufferIndex, Put, Full;
  }

  /** The idle driver after a payload that fits has gone to the start of the buffer. */
  function SentDrv(d: Drv, wr: nat, data: seq<byte>): Drv
    requires Wf(d)
  {
    var sk := d.socks[0];
    var sk1 := sk.(txq := [Seg(0, |data| + 3, [], 0)], txBuf := Put(Put(sk.txBuf, 3, data), 0, Hdr(wr)),
                   sending := true);
    SetSock(d, 0, sk1).(running := WriteBuf(0, 0, |data| + 3), dma := Tx, queue := Rest3(wr, |data|))
  }

  lemma SendsFrom(d: Drv, wr: nat, data: seq<byte>)
    requires Wf(d) && d.running == Idle && d.dma == NoDma && d.queue == []
    requires var sk := d.socks[0];
             && !sk.sending && sk.txq == [] && sk.reg.mode == Tcp && sk.txKb == 2 && sk.reg.sr == Established
                && !sk.clash
             && 0 < |data| <= sk.reg.txFsr && |data| <= 2048 && |data| + 3 <= |sk.txBuf| <= 32767
                && sk.reg.txWr == ToU16(wr)
    ensures Send(d, 0, data, true) == (SentDrv(d, wr, data), SOCK_OK)
  {
    hide Put, Header, SetU16, ToU16, PushAll, Send, SendPlan;
    var n, sk0 := |data|, d.socks[0];
    SendPlaces(d, data, 0);
    var g := Seg(0, n + 3, [], 0);
    assert [] + [g] == [g];
    var sk := sk0.(txq := [g], txBuf := Put(sk0.txBuf, 3, data));
    PlanSends(sk, g, wr, n);
    var cs := [WriteBuf(0, 0, n + 3)] + Rest3(wr, n);
    PushAllIdle(SetSock(SetSock(d, 0, sk), 0, SendPlan(sk, 0).0), cs);
    assert cs[1..] == Rest3(wr, n);
    assert d.socks[0 := sk][0 := SendPlan(sk, 0).0] == d.socks[0 := SendPlan(sk, 0).0];
  }

  /** The driver is idle: the payload goes to the start of the buffer and its batch starts. */
  lemma SendsFirst(w: World, x: Sight, data: seq<byte>) returns (w': World)
    requires Shows(w, x) && x.running == Idle && x.dma == NoDma && x.queue == [] && !x.sending && x.txq == []
             && !x.clash
    requires x.sr == Established && 0 < |data| <= x.fsr && |data| <= 2048 && |data| + 3 <= |x.txBuf|
             && x.mwr == ToU16(x.wr)
    ensures Shows(w', x.(running := WriteBuf(0, 0, |data| + 3), dma := Tx, queue := Rest3(x.wr, |data|),
                         sending := true,
                         txq := [Seg(0, |data| + 3, [], 0)], txBuf := Put(Put(x.txBuf, 3, data), 0, Hdr(x.wr)),
                         accepted := x.accepted + [Msg(data, [], 0)]))
  {
    hide Reachable, ValidChip, Put, Header, SetU16, ToU16, Send, Rest3;
    SendsFrom(w.d, x.wr, data);
    w' := Step(w, TaskSend(0, data, true));
    ShowsNext(w, TaskSend(0, data, true),
              x.(running := WriteBuf(0, 0, |data| + 3), dma := Tx, queue := Rest3(x.wr, |data|), sending := true,
                 txq := [Seg(0, |data| + 3, [], 0)], txBuf := Put(Put(x.txBuf, 3, data), 0, Hdr(x.wr)),
                 accepted := x.accepted + [Msg(data, [], 0)]));
  }

  /** A payload is queued and nothing starts. */
  lemma QueuesOnly(d: Drv, data: seq<byte>, at: nat)
    requires Wf(d) && 0 < |data| <= 2048 && (d.socks[0].reg.sr == Established || d.socks[0].reg.sr == CloseWait)
    requires var sk := d.socks[0];
             && sk.txKb == 2 && |sk.txBuf| <= 32767 && |sk.txq| < SOCKET_QUEUE_SIZE && at + |data| + 3 <= |sk.txBuf|
             && BufferIndex(sk.txq, |sk.txBuf|, |data| + 3) == at
             && (sk.sending || (sk.txq == [] && |data| > sk.reg.txFsr))
    ensures var sk := d.socks[0];
            var sk1 := sk.(txq := sk.txq + [Seg(at, at + |data| + 3, [], 0)], txBuf := Put(sk.txBuf, at + 3, data),
                           clash := sk.clash || Full(sk.txq));
            Send(d, 0, data, true) == (SetSock(d, 0, sk1), SOCK_OK)
  {
    hide Put, PushAll, Send, BufferIndex, Full;
    SendPlaces(d, data, at);
    var sk0 := d.socks[0];
    var sk := sk0.(txq := sk0.txq + [Seg(at, at + |data| + 3, [], 0)], txBuf := Put(sk0.txBuf, at + 3, data),
                   clash := sk0.clash || Full(sk0.txq));
    assert SendPlan(sk, 0) == (sk, []);
    hide SendPlan;
    NothingPushed(SetSock(SetSock(d, 0, sk), 0, sk));
    assert d.socks[0 := sk][0 := sk] == d.socks[0 := sk];
  }

  lemma SendsLater(w: World, x: Sight, data: seq<byte>, at: nat) returns (w': World)
    requires Shows(w, x) && (x.sr == Established || x.sr == CloseWait) && 0 < |data| <= 2048
             && |x.txq| < SOCKET_QUEUE_SIZE
    requires BufferIndex(x.txq, |x.txBuf|, |data| + 3) == at && at + |data| + 3 <= |x.txBuf|
    requires x.sending || (x.txq == [] && |data| > x.fsr)
    ensures Shows(w', x.(txq := x.txq + [Seg(at, at + |data| + 3, [], 0)], txBuf := Put(x.txBuf, at + 3, data),
                         clash := x.clash || Full(x.txq), accepted := x.accepted + [Msg(data, [], 0)]))
  {
    hide Reachable, ValidChip, Put, Send, BufferIndex, Full;
    QueuesOnly(w.d, data, at);
    w' := Step(w, TaskSend(0, data, true));
    ShowsNext(w, TaskSend(0, data, true),
              x.(txq := x.txq + [Seg(at, at + |data| + 3, [], 0)], txBuf := Put(x.txBuf, at + 3, data),
                 clash := x.clash || Full(x.txq), accepted := x.accepted + [Msg(data, [], 0)]));
  }

  lemma NothingPushed(d: Drv)
    requires Wf(d)
    ensures PushAll(d, [], true) == d
  {
  }

  // ---- Completions -------------------------------------------------------------------------------

  /** The payload of the head reaches the chip. */
  lemma BufferWritten(w: World, x: Sight, g: Seg, n: nat) returns (w': World)
    requires Shows(w, x) && x.running == WriteBuf(0, g.start, n + 3) && x.dma == Tx && x.queue == Rest3(x.wr, n)
    requires n > 0 && g.end == g.start + n + 3 <= |x.txBuf| && Take(x.txBuf, g.start, 3) == Hdr(x.wr)
    ensures Shows(w', x.(running := WriteReg(0, Sn_TX_WR, SetU16(ToU16(x.wr) + n)), queue := [CrWrite(0, CR_SEND)],
                         mem := RingWrite(x.mem, x.wr, Payload(x.txBuf, g))))
  {
    hide Reachable, ToU16, SetU16, Header, RingWrite, Payload, Take, AfterWrite;
    BufferLands(0, w.chips[0], x.txBuf, g);
    assert Rest3(x.wr, n)[1..] == [CrWrite(0, CR_SEND)];
    w' := Step(w, Complete(true));
    ShowsNext(w, Complete(true), x.(running := WriteReg(0, Sn_TX_WR, SetU16(ToU16(x.wr) + n)),
                                    queue := [CrWrite(0, CR_SEND)],
                                    mem := RingWrite(x.mem, x.wr, Payload(x.txBuf, g))));
  }

  lemma PointerWritten(w: World, x: Sight, n: nat) returns (w': World)
    requires Shows(w, x) && x.running == WriteReg(0, Sn_TX_WR, SetU16(ToU16(x.wr) + n)) && x.dma == Tx
    requires x.queue == [CrWrite(0, CR_SEND)] && x.cr == 0 && x.wr + n <= x.free + 2048
    ensures Shows(w', x.(running := CrWrite(0, CR_SEND), queue := [ReadCr(0)], wr := x.wr + n))
  {
    hide Reachable, ToU16, SetU16, Advance;
    U16RoundTrip(ToU16(x.wr) + n);
    AdvanceShown(x.wr, n);
    assert IsCrWrite(CrWrite(0, CR_SEND));
    w' := Step(w, Complete(true));
    ShowsNext(w, Complete(true), x.(running := CrWrite(0, CR_SEND), queue := [ReadCr(0)], wr := x.wr + n));
  }

  lemma SendOrderedNow(w: World, x: Sight) returns (w': World)
    requires Shows(w, x) && x.running == CrWrite(0, CR_SEND) && x.dma == Tx && x.queue == [ReadCr(0)]
    ensures Shows(w', x.(running := ReadCr(0), dma := TxRx, queue := [], chipCr := CR_SEND))
  {
    hide Reachable;
    assert x.queue[1..] == [];
    w' := Step(w, Complete(true));
    ShowsNext(w, Complete(true), x.(running := ReadCr(0), dma := TxRx, queue := [], chipCr := CR_SEND));
  }

  /** The chip takes what is between its pointers. */
  lemma SendAccepted(w: World, x: Sight) returns (w': World)
    requires Shows(w, x) && x.chipCr == CR_SEND
    ensures x.rd <= x.wr
    ensures Shows(w', x.(chipCr := 0, rd := x.wr, busy := true,
                         sent := x.sent + [Msg(RingRead(x.mem, x.rd, x.wr - x.rd), [], 0)]))
  {
    hide Reachable, StaleRecv, Sir, RingRead;
    var ev := ChipStep(0, Accept, false, true);
    w' := Step(w, ev);
    ShowsNext(w, ev, x.(chipCr := 0, rd := x.wr, busy := true,
                        sent := x.sent + [Msg(RingRead(x.mem, x.rd, x.wr - x.rd), [], 0)]));
  }

  lemma ReadBackLast(w: World, x: Sight) returns (w': World)
    requires Shows(w, x) && x.running == ReadCr(0) && x.dma == TxRx && x.queue == []
    ensures Shows(w', x.(running := Idle, dma := NoDma, cr := x.chipCr))
  {
    hide Reachable;
    w' := Step(w, Complete(true));
    ShowsNext(w, Complete(true), x.(running := Idle, dma := NoDma, cr := x.chipCr));
  }

  /** The end of sending is signalled and seen. */
  lemma EndSignalled(w: World, x: Sight) returns (w': World)
    requires Shows(w, x) && x.busy && x.ir == {} && x.running == Idle && x.dma == NoDma && x.queue == []
    ensures Shows(w', x.(ir := {SENDOK}, busy := false, running := ReadSir(false), dma := TxRx))
  {
    hide Reachable, StaleRecv, Sir;
    var ev := ChipStep(0, SendDone(true), true, true);
    FlagsOf(w, x);
    w' := Step(w, ev);
    FlagRaised(w.chips, w'.chips);
    ShowsNext(w, ev, x.(ir := {SENDOK}, busy := false, running := ReadSir(false), dma := TxRx));
  }

  /** The peer closes its side while another flag is raised already. */
  lemma PeerCloses(w: World, x: Sight) returns (w': World)
    requires Shows(w, x) && x.chipSr == Established && x.ir == {SENDOK}
    ensures Shows(w', x.(ir := {SENDOK, DISCON}, chipSr := CloseWait))
  {
    hide Reachable, StaleRecv, Sir;
    var ev := ChipStep(0, PeerFin, false, true);
    w' := Step(w, ev);
    ShowsNext(w, ev, x.(ir := {SENDOK, DISCON}, chipSr := CloseWait));
  }

  /** The peer acknowledges: memory becomes free in the chip. */
  lemma MemoryFreed(w: World, x: Sight, n: nat) returns (w': World)
    requires Shows(w, x) && x.free + n <= x.rd
    ensures Shows(w', x.(free := x.free + n))
  {
    hide Reachable, StaleRecv, Sir;
    var ev := ChipStep(0, Freed(n), false, true);
    w' := Step(w, ev);
    ShowsNext(w, ev, x.(free := x.free + n));
  }

  lemma FlagsRead(w: World, x: Sight) returns (w': World)
    requires Shows(w, x) && x.running.ReadSir? && x.dma == TxRx && x.queue == [] && x.ir != {}
    ensures Shows(w', x.(running := ReadSoc(0)))
  {
    hide Reachable, Sir, PushSocs, ValidChip, AfterWrite, ReadReply;
    FlagsOf(w, x);
    OneSocPushed(w.d);
    w' := Step(w, Complete(true));
    ShowsNext(w, Complete(true), x.(running := ReadSoc(0)));
  }

  /** READ_SOC with SENDOK and neither RECV nor TIMEOUT. */
  lemma SocPops(d: Drv, sk: Sock, cs: seq<Cmd>)
    requires Wf(d) && SENDOK in sk.reg.ir && RECV !in sk.reg.ir && TIMEOUT !in sk.reg.ir && |cs| <= 5 && d.queue == []
    requires SendPending(SetSock(d, 0, PopSent(sk)), 0, true) == SetSock(d, 0, SendPlan(PopSent(sk), 0).0).(queue := cs)
    ensures HandleSoc(SetSock(d, 0, sk), 0)
            == SetSock(d, 0, SendPlan(PopSent(sk), 0).0).(queue := [ClearIr(0, sk.reg.ir)] + cs)
  {
    hide SendPlan, ReceivePending, SendPending, PopSent;
    assert d.socks[0 := sk][0 := PopSent(sk)] == d.socks[0 := PopSent(sk)];
  }

  /** READ_SOC drops the sent payload and queues the batch of the next. */
  lemma NextStarts(w: World, x: Sight, g: Seg, n: nat) returns (w': World)
    requires Shows(w, x) && x.running == ReadSoc(0) && x.dma == TxRx && x.queue == [] && x.ir == {SENDOK}
             && x.chipSr == Established
    requires |x.txq| > 1 && x.txq[1] == g && g.end == g.start + n + 3 && x.free <= x.wr && n <= 2048 - (x.wr - x.free)
    ensures Shows(w', x.(running := ClearIr(0, {SENDOK}), dma := Tx,
                         queue := [WriteBuf(0, g.start, n + 3)] + Rest3(x.wr, n),
                         cr := x.chipCr, sr := Established, fsr := 2048 - (x.wr - x.free), mwr := ToU16(x.wr),
                         txq := x.txq[1..], sending := true, txBuf := Put(x.txBuf, g.start, Hdr(x.wr))))
  {
    hide Reachable, SendPlan, PushAll, ValidChip, ToU16, Put, Header, SetU16;
    var sk := w.d.socks[0].(reg := ShownRegs(w.chips[0]));
    FreeShown(w.chips[0]);
    PlanSends(PopSent(sk), g, x.wr, n);
    var cs := [WriteBuf(0, g.start, n + 3)] + Rest3(x.wr, n);
    PushAllBusy(SetSock(SetSock(w.d, 0, PopSent(sk)), 0, SendPlan(PopSent(sk), 0).0), cs);
    assert [] + cs == cs;
    SocPops(w.d, sk, cs);
    w' := Step(w, Complete(true));
    ShowsNext(w, Complete(true),
              x.(running := ClearIr(0, {SENDOK}), dma := Tx, queue := cs,
                 cr := x.chipCr, sr := Established, fsr := 2048 - (x.wr - x.free), mwr := ToU16(x.wr),
                 txq := x.txq[1..], sending := true, txBuf := Put(x.txBuf, g.start, Hdr(x.wr))));
  }

  lemma FreeShown(ch: ChipSock)
    requires ValidChip(ch) && |ch.txMem| == 2048
    ensures TxFsr(ch) == 2048 - (ch.txWr - ch.txFree) && ch.txFree <= ch.txWr
  {
  }

  /** READ_SOC drops the only payload. */
  lemma QueueEmpties(w: World, x: Sight) returns (w': World)
    requires Shows(w, x) && x.running == ReadSoc(0) && x.dma == TxRx && x.queue == [] && x.ir == {SENDOK, DISCON}
    requires |x.txq| == 1 && x.free <= x.wr
    ensures x.wr <= x.free + 2048
    ensures Shows(w', x.(running := ClearIr(0, {SENDOK, DISCON}), dma := Tx,
                         cr := x.chipCr, sr := x.chipSr, fsr := 2048 - (x.wr - x.free), mwr := ToU16(x.wr),
                         txq := [], sending := false))
  {
    hide Reachable, PushAll, ToU16, Put, Header, SetU16;
    var sk := w.d.socks[0].(reg := ShownRegs(w.chips[0]));
    FreeShown(w.chips[0]);
    hide ValidChip;
    assert x.txq[1..] == [];
    assert SendPlan(PopSent(sk), 0) == (PopSent(sk), []);
    hide SendPlan;
    NothingPushed(SetSock(SetSock(w.d, 0, PopSent(sk)), 0, PopSent(sk)));
    SocPops(w.d, sk, []);
    w' := Step(w, Complete(true));
    ShowsNext(w, Complete(true),
              x.(running := ClearIr(0, {SENDOK, DISCON}), dma := Tx,
                 cr := x.chipCr, sr := x.chipSr, fsr := 2048 - (x.wr - x.free), mwr := ToU16(x.wr),
                 txq := [], sending := false));
  }

  /** The acknowledgement reaches the chip and the batch starts. */
  lemma ThenWrites(w: World, x: Sight, at: nat, n: nat) returns (w': World)
    requires Shows(w, x) && x.running == ClearIr(0, x.ir) && x.dma == Tx
             && x.queue == [WriteBuf(0, at, n + 3)] + Rest3(x.wr, n)
    ensures Shows(w', x.(running := WriteBuf(0, at, n + 3), queue := Rest3(x.wr, n), ir := {}))
  {
    hide Reachable, ToU16, SetU16;
    assert x.queue[1..] == Rest3(x.wr, n);
    w' := Step(w, Complete(true));
    ShowsNext(w, Complete(true), x.(running := WriteBuf(0, at, n + 3), queue := Rest3(x.wr, n), ir := {}));
  }

  lemma ThenRests(w: World, x: Sight) returns (w': World)
    requires Shows(w, x) && x.running == ClearIr(0, x.ir) && x.dma == Tx && x.queue == []
    ensures Shows(w', x.(running := Idle, dma := NoDma, ir := {}))
  {
    hide Reachable;
    w' := Step(w, Complete(true));
    ShowsNext(w, Complete(true), x.(running := Idle, dma := NoDma, ir := {}));
  }

  // ---- Parts that both histories share -------------------------------------------------------------

  function OpenedSight(size: nat): Sight {
    Sight(Idle, NoDma, [], 0, Established, 2048, 0, false, [], Zeros(size), false,
          Established, 0, {}, false, 0, 0, 0, Zeros(2048), [], [])
  }

  lemma OpeningTcp(size: nat) returns (w: World)
    requires size <= 32767
    ensures Shows(w, OpenedSight(size))
  {
    var modes := seq(SOCKETS, _ => Tcp);
    StartExists(modes, size);
    w := OpenedWorld(modes, size);
    assert Run([w], []) && [w][0] == w;
    assert Reachable(w);
    hide Reachable, Run, Init, Opened;
    FreshValid(Tcp);
    assert Shape(w);
    hide ValidChip;
  }

  /** The scene when the chip has taken the payload whose buffer transfer is in flight in x. */
  function AfterSending(x: Sight, g: Seg, n: nat): Sight
    requires x.rd <= x.wr && |x.mem| > 0
  {
    var mem := RingWrite(x.mem, x.wr, Payload(x.txBuf, g));
    x.(running := ReadCr(0), dma := TxRx, queue := [], wr := x.wr + n, rd := x.wr + n, busy := true, mem := mem,
       sent := x.sent + [Msg(RingRead(mem, x.rd, x.wr + n - x.rd), [], 0)])
  }

  /** From the buffer transfer in flight to SEND taken. */
  lemma SendOne(w: World, x: Sight, g: Seg, n: nat) returns (w': World)
    requires Shows(w, x) && x.running == WriteBuf(0, g.start, n + 3) && x.dma == Tx && x.queue == Rest3(x.wr, n)
    requires n > 0 && g.end == g.start + n + 3 <= |x.txBuf| && Take(x.txBuf, g.start, 3) == Hdr(x.wr)
    requires x.cr == 0 == x.chipCr && x.wr + n <= x.free + 2048 && x.rd <= x.wr && |x.mem| == 2048
    ensures Shows(w', AfterSending(x, g, n))
  {
    hide Shows, ToU16, SetU16, Header, RingWrite, RingRead, Payload, Take, Rest3;
    var w1 := BufferWritten(w, x, g, n);
    var x1 := x.(running := WriteReg(0, Sn_TX_WR, SetU16(ToU16(x.wr) + n)), queue := [CrWrite(0, CR_SEND)],
                 mem := RingWrite(x.mem, x.wr, Payload(x.txBuf, g)));
    var w2 := PointerWritten(w1, x1, n);
    var x2 := x1.(running := CrWrite(0, CR_SEND), queue := [ReadCr(0)], wr := x.wr + n);
    var w3 := SendOrderedNow(w2, x2);
    w' := SendAccepted(w3, x2.(running := ReadCr(0), dma := TxRx, queue := [], chipCr := CR_SEND));
  }

  // ---- A payload that waits for the next call --------------------------------------------------------

  lemma IsWaiting(w: World, x: Sight)
    requires Shows(w, x) && x.running == Idle && x.dma == NoDma && x.queue == [] && !x.clash
    requires !x.sending && x.txq == [Seg(0, 103, [], 0)] && x.sr == CloseWait == x.chipSr && x.free <= x.wr
             && x.wr - x.free <= 1948
    ensures Reachable(w) && Clean(w) && Shape(w) && Pending(w.d) == []
    ensures Stalled(w, 0) && Unchecked(w, 0) && HeadFits(w.d.socks[0], TxFsr(w.chips[0]))
  {
    hide Reachable;
    FreeShown(w.chips[0]);
  }

  /** 2000 bytes fill most of the chip's memory; the peer closes its side; 100 bytes more have to
      wait; then all of the memory becomes free: nothing has gone wrong, nothing is pending, the
      payload would fit, and only another send call can start it. */
  lemma WaitReached()
    ensures exists w :: Reachable(w) && Clean(w) && Shape(w) && Pending(w.d) == []
                        && Stalled(w, 0) && Unchecked(w, 0) && HeadFits(w.d.socks[0], TxFsr(w.chips[0]))
  {
    hide Shows, Put, Header, RingWrite, RingRead, ToU16, Rest3, Stalled, Unchecked, HeadFits, Reachable, Clean, Pending;
    var first, g := Zeros(2000), Seg(0, 2003, [], 0);
    var w0 := OpeningTcp(2051);
    var x0 := OpenedSight(2051);
    ShownZero();
    var w1 := SendsFirst(w0, x0, first);
    var x1 := x0.(running := WriteBuf(0, 0, 2003), dma := Tx, queue := Rest3(0, 2000), sending := true, txq := [g],
                  txBuf := Put(Put(x0.txBuf, 3, first), 0, Hdr(0)), accepted := [] + [Msg(first, [], 0)]);
    TakePut(Put(x0.txBuf, 3, first), 0, Hdr(0));
    var w2 := SendOne(w1, x1, g, 2000);
    var x2 := AfterSending(x1, g, 2000);
    var w3 := ReadBackLast(w2, x2);
    var x3 := x2.(running := Idle, dma := NoDma, cr := 0);
    var w4 := EndSignalled(w3, x3);
    var x4 := x3.(ir := {SENDOK}, busy := false, running := ReadSir(false), dma := TxRx);
    var w5 := PeerCloses(w4, x4);
    var x5 := x4.(ir := {SENDOK, DISCON}, chipSr := CloseWait);
    var w6 := FlagsRead(w5, x5);
    var x6 := x5.(running := ReadSoc(0));
    var w7 := QueueEmpties(w6, x6);
    var x7 := x6.(running := ClearIr(0, {SENDOK, DISCON}), dma := Tx, cr := 0, sr := CloseWait, fsr := 48,
                  mwr := ToU16(2000),
                  txq := [], sending := false);
    var w8 := ThenRests(w7, x7);
    var x8 := x7.(running := Idle, dma := NoDma, ir := {});
    var w9 := SendsLater(w8, x8, Zeros(100), 0);
    var x9 := x8.(txq := [] + [Seg(0, 103, [], 0)], txBuf := Put(x8.txBuf, 3, Zeros(100)),
                  accepted := x8.accepted + [Msg(Zeros(100), [], 0)]);
    var w10 := MemoryFreed(w9, x9, 2000);
    IsWaiting(w10, x9.(free := 2000));
  }

  lemma ShownZero()
    ensures ToU16(0) == 0
  {
  }

  // ---- An exact fill ---------------------------------------------------------------------------------

  /** Seven equal bytes. */
  function Fill(k: byte): (b: seq<byte>)
    ensures |b| == 7 && b[0] == k
  {
    seq(7, _ => k)
  }

  /** The send buffer after two payloads of seven bytes have been placed in its 20 bytes. */
  function TwoPlaced(): (t: seq<byte>)
    ensures |t| == 20
  {
    Put(Put(Put(Zeros(20), 3, Fill(1)), 0, Hdr(0)), 13, Fill(2))
  }

  /** The first has been sent, the second has its header, and two more have been placed. */
  function FourPlaced(): (t: seq<byte>)
    ensures |t| == 20
  {
    Put(Put(Put(TwoPlaced(), 10, Hdr(7)), 3, Fill(3)), 13, Fill(4))
  }

  lemma HeadersStand()
    ensures Take(TwoPlaced(), 0, 3) == Hdr(0) && Take(FourPlaced(), 10, 3) == Hdr(7)
    ensures Payload(FourPlaced(), Seg(10, 20, [], 0)) == Fill(4)
  {
    hide Put, Header, Take, Fill;
    var t0 := Put(Zeros(20), 3, Fill(1));
    TakePut(t0, 0, Hdr(0));
    TakeElsewhere(Put(t0, 0, Hdr(0)), 13, Fill(2), 0, 3);
    var t1 := Put(TwoPlaced(), 10, Hdr(7));
    TakePut(TwoPlaced(), 10, Hdr(7));
    TakeElsewhere(t1, 3, Fill(3), 10, 3);
    TakeElsewhere(Put(t1, 3, Fill(3)), 13, Fill(4), 10, 3);
    TakePut(Put(t1, 3, Fill(3)), 13, Fill(4));
  }

  /** Two payloads accepted, the first sent and confirmed, the second about to be transferred. */
  lemma SecondInQueue() returns (w: World, x: Sight)
    ensures Shows(w, x) && x.running == ClearIr(0, x.ir) && x.dma == Tx
            && x.queue == [WriteBuf(0, 10, 10)] + Rest3(7, 7)
    ensures x.cr == 0 == x.chipCr && x.sr == Established && x.sending && x.txq == [Seg(10, 20, [], 0)] && !x.clash
    ensures x.txBuf == Put(TwoPlaced(), 10, Hdr(7)) && x.rd == 7 == x.wr && x.free == 0 && |x.mem| == 2048
    ensures |x.sent| == 1 && x.accepted == [Msg(Fill(1), [], 0), Msg(Fill(2), [], 0)]
  {
    hide Shows, Put, Header, RingWrite, RingRead, ToU16, Rest3, Fill, Zeros;
    var g0, g1 := Seg(0, 10, [], 0), Seg(10, 20, [], 0);
    var w0 := OpeningTcp(20);
    var x0 := OpenedSight(20);
    ShownZero();
    ZerosSize();
    var w1 := SendsFirst(w0, x0, Fill(1));
    var x1 := x0.(running := WriteBuf(0, 0, 10), dma := Tx, queue := Rest3(0, 7), sending := true, txq := [g0],
                  txBuf := Put(Put(x0.txBuf, 3, Fill(1)), 0, Hdr(0)), accepted := [] + [Msg(Fill(1), [], 0)]);
    var w2 := SendsLater(w1, x1, Fill(2), 10);
    var x2 := x1.(txq := [g0] + [g1], txBuf := TwoPlaced(), accepted := x1.accepted + [Msg(Fill(2), [], 0)]);
    HeadersStand();
    var w3 := SendOne(w2, x2, g0, 7);
    var x3 := AfterSending(x2, g0, 7);
    var w4 := ReadBackLast(w3, x3);
    var x4 := x3.(running := Idle, dma := NoDma, cr := 0);
    var w5 := EndSignalled(w4, x4);
    var x5 := x4.(ir := {SENDOK}, busy := false, running := ReadSir(false), dma := TxRx);
    var w6 := FlagsRead(w5, x5);
    var x6 := x5.(running := ReadSoc(0));
    w := NextStarts(w6, x6, g1, 7);
    x := x6.(running := ClearIr(0, {SENDOK}), dma := Tx, queue := [WriteBuf(0, 10, 10)] + Rest3(7, 7),
             cr := 0, sr := Established, fsr := 2041, mwr := ToU16(7), txq := x6.txq[1..], sending := true,
             txBuf := Put(TwoPlaced(), 10, Hdr(7)));
    assert x6.txq[1..] == [g1];
    assert x.accepted == [Msg(Fill(1), [], 0), Msg(Fill(2), [], 0)];
  }

  lemma ZerosSize()
    ensures |Zeros(20)| == 20 && |Zeros(2048)| == 2048
  {
  }

  lemma WrongBytes(w: World, x: Sight, mem: seq<byte>)
    requires Shows(w, x) && |mem| == 2048 && |x.sent| == 2
             && x.sent[1] == Msg(RingRead(RingWrite(mem, 7, Fill(4)), 7, 7), [], 0)
    requires |x.accepted| == 4 && x.accepted[1] == Msg(Fill(2), [], 0)
    ensures Reachable(w) && Shape(w) && w.d.fails == 0 && !w.pollFailed
    ensures |w.chips[0].sent| == 2 && w.chips[0].sent[1] == Msg(Fill(4), [], 0)
    ensures |w.hist[0].accepted| == 4 && w.hist[0].accepted[1] == Msg(Fill(2), [], 0)
            && !(w.chips[0].sent <= w.hist[0].accepted)
  {
    hide Reachable, ValidChip, RingRead, RingWrite, Driver0;
    RingReadWritten(mem, 7, Fill(4));
    assert Fill(4)[0] != Fill(2)[0];
  }

  /** A send buffer of 20 bytes and payloads of seven: two sends, the end of the first, two more
      sends, of which the first fills the gap exactly and the second is put over the payload that
      is about to be transferred. No command is lost and no poll fails, yet the chip sends the
      fourth payload in place of the second. */
  lemma ExactFillReached()
    ensures exists w :: Reachable(w) && Shape(w) && w.d.fails == 0 && !w.pollFailed
                        && |w.chips[0].sent| == 2 && w.chips[0].sent[1] == Msg(Fill(4), [], 0)
                        && |w.hist[0].accepted| == 4 && w.hist[0].accepted[1] == Msg(Fill(2), [], 0)
                        && !(w.chips[0].sent <= w.hist[0].accepted)
  {
    hide Shows, Put, Header, RingWrite, RingRead, ToU16, Rest3, Fill, Zeros, Reachable;
    var g0, g1 := Seg(0, 10, [], 0), Seg(10, 20, [], 0);
    var w0, x0 := SecondInQueue();
    var w1 := SendsLater(w0, x0, Fill(3), 0);
    var x1 := x0.(txq := [g1] + [g0], txBuf := Put(x0.txBuf, 3, Fill(3)),
                  accepted := x0.accepted + [Msg(Fill(3), [], 0)]);
    var w2 := SendsLater(w1, x1, Fill(4), 10);
    var x2 := x1.(txq := [g1] + [g0] + [g1], txBuf := FourPlaced(), clash := true,
                  accepted := x1.accepted + [Msg(Fill(4), [], 0)]);
    var w3 := ThenWrites(w2, x2, 10, 7);
    var x3 := x2.(running := WriteBuf(0, 10, 10), queue := Rest3(7, 7), ir := {});
    HeadersStand();
    var w4 := SendOne(w3, x3, g1, 7);
    WrongBytes(w4, AfterSending(x3, g1, 7), x3.mem);
  }
}
