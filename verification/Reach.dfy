/** Runs that reach the situations of Limits: two short histories of UDP socket 0, event by
    event, the other sockets being quiet. */
module Reach {
  import opened Bytes
  import opened Spi
  import opened RingAlloc
  import opened DriverSpec
  import opened Chip
  import opened World
  import opened Lanes
  import opened LocalInv
  import opened Records
  import opened Scheduling
  import opened Invariant
  import opened ReadCompletion
  import opened Runs
  import opened Limits

  ghost predicate Reachable(w: World) {
    exists states, events :: Run(states, events) && states[|events|] == w
  }

  lemma ReachOn(w: World, ev: Event)
    requires Reachable(w) && Shape(w) && Enabled(w, ev)
    ensures Reachable(Step(w, ev))
  {
    hide Init, Enabled, Step;
    var states, events :| Run(states, events) && states[|events|] == w;
    var states', events' := states + [Step(w, ev)], events + [ev];
    forall i | 0 <= i < |events'|
      ensures OneStep(states'[i], events'[i], states'[i + 1])
    {
      if i < |events| { assert OneStep(states[i], events[i], states[i + 1]); }
    }
    assert Run(states', events') && states'[|events'|] == Step(w, ev);
  }

  // ---- The scene ---------------------------------------------------------------------------------

  /** One record of one byte: address, port, length, data. */
  const RECORD: seq<byte> := [0, 0, 0, 0, 0, 0, 0, 1, 7]

  lemma RecordIsWhole()
    ensures Whole(RECORD) && |RECORD| == 9
  {
    assert RECORD[6..8] == [0, 1];
    assert DataSize(RECORD) == 1;
    assert RECORD[9..] == [];
  }

  /** What the scheduler does, and where socket 0 stands: its mirrors (cr, rsr, mrd), its
      receive queue, and in the chip its command register, flags and receive pointers. */
  datatype Scene = Scene(running: Cmd, dma: Dma, queue: seq<Cmd>,
                         cr: byte, rsr: u16, mrd: u16, receiving: bool, rxq: seq<Seg>,
                         chipCr: byte, ir: set<Flag>, rd: nat, rel: nat, wr: nat)

  /** An open UDP socket of which the driver knows no flag. */
  predicate Quiet(sk: Sock, ch: ChipSock) {
    sk.reg.sr == UdpOpen && !sk.clash && ch.ir == {}
  }

  predicate Front(x: Scene, sk: Sock, ch: ChipSock) {
    && sk.reg.sr == UdpOpen && !sk.clash && |sk.rxBuf| == 2051
    && sk.reg.cr == x.cr && sk.reg.rxRsr == x.rsr && sk.reg.rxRd == x.mrd && sk.receiving == x.receiving
       && sk.rxq == x.rxq
    && ch.mode == Udp && ch.sr == UdpOpen && |ch.rxMem| == 2048
    && ch.cr == x.chipCr && ch.ir == x.ir && ch.rxRd == x.rd && ch.rxRel == x.rel && ch.rxWr == x.wr
  }

  ghost predicate At(w: World, x: Scene) {
    && Reachable(w) && Shape(w) && w.d.fails == 0 && !w.pollFailed
    && w.d.running == x.running && w.d.dma == x.dma && w.d.queue == x.queue
    && Front(x, w.d.socks[0], w.chips[0])
    && forall s :: 1 <= s < SOCKETS ==> Quiet(w.d.socks[s], w.chips[s])
  }

  /** Only socket 0 changes, and the step leads to the next scene. */
  lemma Onto(w: World, ev: Event, x: Scene)
    requires Reachable(w) && Shape(w) && Enabled(w, ev)
             && (forall s :: 1 <= s < SOCKETS ==> Quiet(w.d.socks[s], w.chips[s]))
    requires var w' := Step(w, ev);
             && Wf(w'.d) && w'.d.fails == 0 && !w'.pollFailed && |w'.chips| == SOCKETS == |w'.hist|
             && w'.d.running == x.running && w'.d.dma == x.dma && w'.d.queue == x.queue
             && w'.d.socks == w.d.socks[0 := w'.d.socks[0]] && w'.chips == w.chips[0 := w'.chips[0]]
             && ValidChip(w'.chips[0]) && Front(x, w'.d.socks[0], w'.chips[0])
    ensures At(Step(w, ev), x)
  {
    hide Step, Enabled, Front, ValidChip, Reachable;
    ReachOn(w, ev);
  }

  // ---- Helpers -----------------------------------------------------------------------------------

  lemma SirIs(w: World, x: Scene)
    requires At(w, x)
    ensures Sir(w.chips) == if x.ir == {} then {} else {0}
  {
    hide Reachable, ValidChip;
    assert forall s :: s in Sir(w.chips) ==> s == 0;
    if x.ir != {} { assert 0 in Sir(w.chips); }
  }

  lemma {:induction false} FirstSoc(i: nat)
    requires i > 0
    ensures Socs({0}, i) == [ReadSoc(0)]
  {
    if i == 1 { NoSocsYet({0}); } else { FirstSoc(i - 1); }
  }

  lemma OneSocPushed(d: Drv)
    requires Wf(d) && d.queue == []
    ensures PushSocs(d, {0}, 0) == d.(queue := [ReadSoc(0)])
  {
    hide PushSocs, Socs;
    NoSocsYet({0});
    FirstPush(d, 0);
    PushSocsAdds(d, {0}, 0, [], []);
    FirstSoc(SOCKETS);
    assert [ReadSoc(0)] + [] == [ReadSoc(0)];
  }

  lemma {:induction false} FirstPush(d: Drv, i: nat)
    requires Wf(d) && i <= SOCKETS && |d.queue| <= 1
    ensures PushSocs(d, {0}, i).fails == d.fails
    decreases SOCKETS - i
  {
    if i < SOCKETS {
      if i == 0 { NoneFlagged(QueueFront(d, ReadSoc(0)), 1); } else { NoneFlagged(d, i); }
    }
  }

  lemma {:induction false} NoneFlagged(d: Drv, i: nat)
    requires Wf(d) && 0 < i <= SOCKETS
    ensures PushSocs(d, {0}, i) == d
    decreases SOCKETS - i
  {
    if i < SOCKETS { NoneFlagged(d, i + 1); }
  }

  lemma {:induction false} PushAllBusy(d: Drv, cs: seq<Cmd>)
    requires Wf(d) && !d.running.Idle? && |d.queue| + |cs| <= COMMAND_QUEUE_SIZE
    ensures PushAll(d, cs, true) == d.(queue := d.queue + cs)
    decreases |cs|
  {
    if cs == [] {
      assert d.queue + [] == d.queue;
    } else {
      PushAllBusy(PushBack(d, cs[0], true), cs[1..]);
      assert d.queue + [cs[0]] + cs[1..] == d.queue + cs;
    }
  }

  lemma {:induction false} NoChecks(d: Drv, sn: nat, ok: bool)
    requires Wf(d) && sn <= SOCKETS && forall s :: 0 <= s < SOCKETS ==> d.socks[s].reg.sr == UdpOpen
    ensures PushTxChecks(d, sn, ok) == d
    decreases SOCKETS - sn
  {
    if sn < SOCKETS { NoChecks(d, sn + 1, ok); }
  }

  // ---- Chip events -------------------------------------------------------------------------------

  /** A record arrives and its INT edge, if any, is missed. */
  lemma RecordArrives(w: World, x: Scene) returns (w': World)
    requires At(w, x) && x.wr + 9 <= x.rel + 2048
    ensures At(w', x.(ir := x.ir + {RECV}, wr := x.wr + 9))
  {
    hide Reachable, Whole, RingWrite, StaleRecv, Sir;
    var ev := ChipStep(0, Arrive(RECORD), false, true);
    RecordIsWhole();
    w' := Step(w, ev);
    Onto(w, ev, x.(ir := x.ir + {RECV}, wr := x.wr + 9));
  }

  /** The first record arrives, the edge is seen, and the idle driver reads the Socket
      Interrupt Register. */
  lemma RecordSeen(w: World, x: Scene) returns (w': World)
    requires At(w, x) && x.wr + 9 <= x.rel + 2048 && x.ir == {} && x.running == Idle && x.dma == NoDma && x.queue == []
    ensures At(w', x.(ir := {RECV}, wr := x.wr + 9, running := ReadSir(false), dma := TxRx))
  {
    hide Reachable, Whole, RingWrite, StaleRecv, Sir;
    var ev := ChipStep(0, Arrive(RECORD), true, true);
    RecordIsWhole();
    SirIs(w, x);
    w' := Step(w, ev);
    FlagRaised(w.chips, w'.chips);
    Onto(w, ev, x.(ir := {RECV}, wr := x.wr + 9, running := ReadSir(false), dma := TxRx));
  }

  lemma FlagRaised(chips: seq<ChipSock>, chips': seq<ChipSock>)
    requires |chips| == SOCKETS == |chips'| && chips'[0].ir != {}
    ensures Sir(chips') != {}
  {
    assert 0 in Sir(chips');
  }

  /** The chip accepts RECV. */
  lemma RecvAccepted(w: World, x: Scene) returns (w': World)
    requires At(w, x) && x.chipCr == CR_RECV
    ensures At(w', x.(chipCr := 0, rel := x.rd))
  {
    hide Reachable, StaleRecv, Sir;
    var ev := ChipStep(0, Accept, false, true);
    w' := Step(w, ev);
    assert w.hist[0 := w.hist[0]] == w.hist;
    Onto(w, ev, x.(chipCr := 0, rel := x.rd));
  }

  // ---- Completions -------------------------------------------------------------------------------

  lemma SirRead(w: World, x: Scene) returns (w': World)
    requires At(w, x) && x.running.ReadSir? && x.dma == TxRx && x.queue == [] && x.ir != {}
    ensures At(w', x.(running := ReadSoc(0), queue := []))
  {
    hide Reachable, Sir, PushSocs, ValidChip, AfterWrite, ReadReply;
    SirIs(w, x);
    OneSocPushed(w.d);
    w' := Step(w, Complete(true));
    Onto(w, Complete(true), x.(running := ReadSoc(0), queue := []));
  }

  function Batch(at: nat, rd: nat): (cs: seq<Cmd>)
    ensures |cs| == 5
  {
    RecvBatch(0, at, 9, ToU16(rd))
  }

  lemma PlanFetches(sk: Sock, at: nat)
    requires !sk.receiving && sk.reg.sr == UdpOpen && sk.reg.rxRsr == 9 && |sk.rxBuf| == 2051 && !sk.clash
    requires (at == 0 && sk.rxq == []) || (at == 12 && sk.rxq == [Seg(0, 12, [], 0)])
    ensures ReceivePlan(sk, 0) == (sk.(rxBuf := Put(sk.rxBuf, at, Header(sk.reg.rxRd, RxBlock(0), false)),
                                       receiving := true),
                                   RecvBatch(0, at, 9, sk.reg.rxRd))
  {
    hide Put, Header, RecvBatch;
  }

  /** READ_SOC finds data: the receive batch is queued and the acknowledgement goes out. */
  lemma SocFindsData(w: World, x: Scene) returns (w': World)
    requires At(w, x) && x.running == ReadSoc(0) && x.dma == TxRx && x.queue == [] && x.ir == {RECV}
    requires !x.receiving && x.rxq == [] && x.wr == x.rel + 9 && x.rd == x.rel
    ensures At(w', x.(running := ClearIr(0, {RECV}), dma := Tx, queue := Batch(0, x.rd),
                      cr := x.chipCr, rsr := 9, mrd := ToU16(x.rd), receiving := true))
  {
    hide Reachable, ReceivePlan, SendPending, RecvBatch, PushAll, ValidChip, ToU16;
    var sk := w.d.socks[0].(reg := ShownRegs(w.chips[0]));
    NineUnread(w.chips[0]);
    PlanFetches(sk, 0);
    var cs := Batch(0, x.rd);
    var d1 := SetSock(SetSock(w.d, 0, sk), 0, ReceivePlan(sk, 0).0);
    PushAllBusy(d1, cs);
    assert [] + cs == cs;
    SocHandles(w.d, sk, cs);
    w' := Step(w, Complete(true));
    Onto(w, Complete(true), x.(running := ClearIr(0, {RECV}), dma := Tx, queue := cs,
                               cr := x.chipCr, rsr := 9, mrd := ToU16(x.rd), receiving := true));
  }

  lemma NineUnread(ch: ChipSock)
    requires ValidChip(ch) && ch.rxWr <= ch.rxRel + 9
    ensures RxRsr(ch) == ch.rxWr - ch.rxRel
  {
  }

  /** READ_SOC with RECV as the only flag. */
  lemma SocHandles(d: Drv, sk: Sock, cs: seq<Cmd>)
    requires Wf(d) && sk.reg.ir == {RECV} && |cs| <= 5 && d.queue == []
    requires ReceivePending(SetSock(d, 0, sk), 0, true) == SetSock(d, 0, ReceivePlan(sk, 0).0).(queue := cs)
    ensures HandleSoc(SetSock(d, 0, sk), 0) == SetSock(d, 0, ReceivePlan(sk, 0).0).(queue := [ClearIr(0, {RECV})] + cs)
  {
    hide ReceivePlan, ReceivePending, SendPending;
  }

  /** READ_SOC finds RECV and nothing to read. */
  lemma SocFindsNothing(w: World, x: Scene) returns (w': World)
    requires At(w, x) && x.running == ReadSoc(0) && x.dma == TxRx && x.queue == [] && x.ir == {RECV}
    requires !x.receiving && x.wr == x.rel == x.rd
    ensures At(w', x.(running := ClearIr(0, {RECV}), dma := Tx, cr := x.chipCr, rsr := 0, mrd := ToU16(x.rd)))
  {
    hide Reachable, SendPending, ValidChip, ToU16, PushAll;
    var sk := w.d.socks[0].(reg := ShownRegs(w.chips[0]));
    NineUnread(w.chips[0]);
    assert ReceivePlan(sk, 0) == (sk, []);
    hide ReceivePlan;
    PushAllBusy(SetSock(SetSock(w.d, 0, sk), 0, sk), []);
    SocHandles(w.d, sk, []);
    w' := Step(w, Complete(true));
    Onto(w, Complete(true), x.(running := ClearIr(0, {RECV}), dma := Tx, cr := x.chipCr, rsr := 0, mrd := ToU16(x.rd)));
  }

  /** The acknowledgement reaches the chip and the data is fetched. */
  lemma Acknowledged(w: World, x: Scene, at: nat) returns (w': World)
    requires At(w, x) && x.running == ClearIr(0, {RECV}) && x.dma == Tx && x.queue == Batch(at, x.rd) && x.ir == {RECV}
    ensures At(w', x.(running := ReadBuf(0, at, 12), dma := TxRx, queue := Batch(at, x.rd)[1..], ir := {}))
  {
    BatchHead(at, x.rd);
    hide Reachable, ToU16, SetU16, Batch;
    w' := Step(w, Complete(true));
    Onto(w, Complete(true), x.(running := ReadBuf(0, at, 12), dma := TxRx, queue := Batch(at, x.rd)[1..], ir := {}));
  }

  function Got(at: nat): Seg { Seg(at, at + 12, [], 0) }

  lemma Fetches(w: World, x: Scene, at: nat) returns (w': World)
    requires At(w, x) && x.running == ReadBuf(0, at, 12) && x.dma == TxRx && x.queue == Batch(at, x.rd)[1..]
    requires |x.rxq| < 2 && at <= 12
    ensures At(w', x.(running := WriteReg(0, Sn_RX_RD, SetU16(ToU16(x.rd) + 9)), dma := Tx, queue := RecvTail(0),
                      rxq := x.rxq + [Got(at)]))
  {
    hide Reachable, ToU16, SetU16, Header, RingRead, Put;
    FetchedIs(at, 12);
    hide Fetched;
    assert Batch(at, x.rd)[1..] == [WriteReg(0, Sn_RX_RD, SetU16(ToU16(x.rd) + 9))] + RecvTail(0);
    w' := Step(w, Complete(true));
    Onto(w, Complete(true), x.(running := WriteReg(0, Sn_RX_RD, SetU16(ToU16(x.rd) + 9)), dma := Tx,
                               queue := RecvTail(0), rxq := x.rxq + [Got(at)]));
  }

  lemma PointerMoves(w: World, x: Scene) returns (w': World)
    requires At(w, x) && x.running == WriteReg(0, Sn_RX_RD, SetU16(ToU16(x.rd) + 9)) && x.dma == Tx
             && x.queue == RecvTail(0)
    requires x.cr == 0 && x.rd + 9 <= x.wr
    ensures At(w', x.(running := CrWrite(0, CR_RECV), dma := Tx, queue := [ReadCr(0)] + RecvTail(0)[1..],
                      rd := x.rd + 9))
  {
    hide Reachable, ToU16, SetU16, Advance;
    U16RoundTrip(ToU16(x.rd) + 9);
    AdvanceShown(x.rd, 9);
    assert RecvTail(0)[0] == CrWrite(0, CR_RECV) && IsCrWrite(CrWrite(0, CR_RECV));
    w' := Step(w, Complete(true));
    Onto(w, Complete(true), x.(running := CrWrite(0, CR_RECV), dma := Tx, queue := [ReadCr(0)] + RecvTail(0)[1..],
                               rd := x.rd + 9));
  }

  /** RECV is in the command register, and its read-back starts. */
  lemma RecvWritten(w: World, x: Scene, rest: seq<Cmd>) returns (w': World)
    requires At(w, x) && x.running == CrWrite(0, CR_RECV) && x.dma == Tx && x.queue == [ReadCr(0)] + rest
    ensures At(w', x.(running := ReadCr(0), dma := TxRx, queue := rest, chipCr := CR_RECV))
  {
    hide Reachable;
    assert x.queue[1..] == rest;
    w' := Step(w, Complete(true));
    Onto(w, Complete(true), x.(running := ReadCr(0), dma := TxRx, queue := rest, chipCr := CR_RECV));
  }

  /** The read-back finds RECV accepted and the second one goes out. */
  lemma FoundFree(w: World, x: Scene) returns (w': World)
    requires At(w, x) && x.running == ReadCr(0) && x.dma == TxRx && x.queue == RecvTail(0)[1..] && x.chipCr == 0
    ensures At(w', x.(running := CrWrite(0, CR_RECV), dma := Tx, queue := [ReadCr(0)] + [CheckRcv(0)], cr := 0))
  {
    hide Reachable;
    assert x.queue == [CrWrite(0, CR_RECV), CheckRcv(0)] && x.queue[1..] == [CheckRcv(0)];
    w' := Step(w, Complete(true));
    Onto(w, Complete(true), x.(running := CrWrite(0, CR_RECV), dma := Tx, queue := [ReadCr(0)] + [CheckRcv(0)],
                               cr := 0));
  }

  /** The read-back finds RECV still there: the second one is polled for. */
  lemma FoundBusy(w: World, x: Scene) returns (w': World)
    requires At(w, x) && x.running == ReadCr(0) && x.dma == TxRx && x.queue == RecvTail(0)[1..] && x.chipCr == CR_RECV
    ensures At(w', x.(running := CrWrite(0, CR_RECV), dma := TxRx, cr := CR_RECV))
  {
    hide Reachable;
    assert x.queue == [CrWrite(0, CR_RECV), CheckRcv(0)];
    w' := Step(w, Complete(true));
    assert [x.queue[0]] + x.queue[1..] == x.queue;
    Onto(w, Complete(true), x.(running := CrWrite(0, CR_RECV), dma := TxRx, cr := CR_RECV));
  }

  /** The second read-back finds the register free and the size is sampled. */
  lemma CheckStarts(w: World, x: Scene) returns (w': World)
    requires At(w, x) && x.running == ReadCr(0) && x.dma == TxRx && x.queue == [CheckRcv(0)] && x.chipCr == 0
    ensures At(w', x.(running := CheckRcv(0), dma := TxRx, queue := [], cr := 0))
  {
    hide Reachable;
    assert x.queue[1..] == [];
    w' := Step(w, Complete(true));
    Onto(w, Complete(true), x.(running := CheckRcv(0), dma := TxRx, queue := [], cr := 0));
  }

  /** CHECK_RCV finds the second record and fetches it. */
  lemma CheckFindsData(w: World, x: Scene) returns (w': World)
    requires At(w, x) && x.running == CheckRcv(0) && x.dma == TxRx && x.queue == []
    requires x.rxq == [Got(0)] && x.rd == x.rel && x.wr == x.rel + 9
    ensures At(w', x.(running := ReadBuf(0, 12, 12), dma := TxRx, queue := Batch(12, x.rd)[1..],
                      rsr := 9, mrd := ToU16(x.rd), receiving := true))
  {
    hide Reachable, ReceivePlan, RecvBatch, PushAll, ValidChip, ToU16;
    var sk0 := w.d.socks[0];
    NineUnread(w.chips[0]);
    var sk := sk0.(reg := sk0.reg.(rxRsr := 9, rxRd := ToU16(x.rd)), receiving := false);
    PlanFetches(sk, 12);
    var cs := Batch(12, x.rd);
    BatchHead(12, x.rd);
    PushAllBusy(SetSock(SetSock(w.d, 0, sk), 0, ReceivePlan(sk, 0).0), cs);
    assert [] + cs == cs;
    w' := Step(w, Complete(true));
    Onto(w, Complete(true), x.(running := ReadBuf(0, 12, 12), dma := TxRx, queue := cs[1..],
                               rsr := 9, mrd := ToU16(x.rd), receiving := true));
  }

  lemma BatchHead(at: nat, rd: nat)
    ensures Batch(at, rd)[0] == ReadBuf(0, at, 12)
  {
  }

  /** CHECK_RCV finds nothing more and the driver rests. */
  lemma CheckFindsNothing(w: World, x: Scene) returns (w': World)
    requires At(w, x) && x.running == CheckRcv(0) && x.dma == TxRx && x.queue == [] && x.rd == x.rel == x.wr
    ensures At(w', x.(running := Idle, dma := NoDma, rsr := 0, mrd := ToU16(x.rd), receiving := false))
  {
    hide Reachable, ValidChip, ToU16, PushAll;
    NineUnread(w.chips[0]);
    var sk0 := w.d.socks[0];
    var sk := sk0.(reg := sk0.reg.(rxRsr := 0, rxRd := ToU16(x.rd)), receiving := false);
    assert ReceivePlan(sk, 0) == (sk, []);
    hide ReceivePlan;
    PushAllBusy(SetSock(SetSock(w.d, 0, sk), 0, sk), []);
    w' := Step(w, Complete(true));
    Onto(w, Complete(true), x.(running := Idle, dma := NoDma, rsr := 0, mrd := ToU16(x.rd), receiving := false));
  }

  /** A timer tick finds the driver idle and reads the Socket Interrupt Register. */
  lemma TimerReads(w: World, x: Scene) returns (w': World)
    requires At(w, x) && x.running == Idle && x.dma == NoDma && x.queue == []
    ensures At(w', x.(running := ReadSir(true), dma := TxRx))
  {
    hide Reachable, ValidChip, PushTxChecks;
    NoChecks(w.d, 0, true);
    w' := Step(w, Timer(true));
    Onto(w, Timer(true), x.(running := ReadSir(true), dma := TxRx));
  }

  // ---- The two histories -------------------------------------------------------------------------

  /** Eight open UDP sockets at rest. */
  function AtRest(): Scene {
    Scene(Idle, NoDma, [], 0, 0, 0, false, [], 0, {}, 0, 0, 0)
  }

  lemma Opening() returns (w: World)
    ensures At(w, AtRest())
  {
    var modes := seq(SOCKETS, _ => Udp);
    StartExists(modes, 2051);
    w := OpenedWorld(modes, 2051);
    assert Run([w], []) && [w][0] == w;
    assert Reachable(w);
    hide Reachable, Run, Init, Opened;
    FreshValid(Udp);
    assert Shape(w);
    hide ValidChip;
  }

  /** From READ_BUF in flight to the read pointer moved and the first RECV read back, not yet
      accepted. */
  lemma FetchOne(w: World, x: Scene, at: nat) returns (w': World)
    requires At(w, x) && x.running == ReadBuf(0, at, 12) && x.dma == TxRx && x.queue == Batch(at, x.rd)[1..]
    requires |x.rxq| < 2 && at <= 12 && x.cr == 0 && x.rd + 9 <= x.wr
    ensures At(w', x.(running := ReadCr(0), dma := TxRx, queue := RecvTail(0)[1..], rxq := x.rxq + [Got(at)],
                      rd := x.rd + 9, chipCr := CR_RECV))
  {
    hide At, RecvTail, Batch, SetU16, ToU16;
    var w1 := Fetches(w, x, at);
    var x1 := x.(running := WriteReg(0, Sn_RX_RD, SetU16(ToU16(x.rd) + 9)), dma := Tx, queue := RecvTail(0),
                 rxq := x.rxq + [Got(at)]);
    var w2 := PointerMoves(w1, x1);
    var x2 := x1.(running := CrWrite(0, CR_RECV), dma := Tx, queue := [ReadCr(0)] + RecvTail(0)[1..], rd := x.rd + 9);
    w' := RecvWritten(w2, x2, RecvTail(0)[1..]);
  }

  /** Both RECV accepted, up to CHECK_RCV in flight. */
  lemma ReleaseAll(w: World, x: Scene) returns (w': World)
    requires At(w, x) && x.running == ReadCr(0) && x.dma == TxRx && x.queue == RecvTail(0)[1..] && x.chipCr == CR_RECV
             && x.cr == 0
    ensures At(w', x.(running := CheckRcv(0), dma := TxRx, queue := [], chipCr := 0, rel := x.rd))
  {
    hide At, RecvTail;
    var w1 := RecvAccepted(w, x);
    var x1 := x.(chipCr := 0, rel := x.rd);
    var w2 := FoundFree(w1, x1);
    var x2 := x1.(running := CrWrite(0, CR_RECV), dma := Tx, queue := [ReadCr(0)] + [CheckRcv(0)], cr := 0);
    var w3 := RecvWritten(w2, x2, [CheckRcv(0)]);
    var x3 := x2.(running := ReadCr(0), dma := TxRx, queue := [CheckRcv(0)], chipCr := CR_RECV);
    var w4 := RecvAccepted(w3, x3);
    w' := CheckStarts(w4, x3.(chipCr := 0, rel := x3.rd));
  }

  /** The first record arrives, is seen and is about to be fetched. */
  lemma FirstFetch() returns (w: World)
    ensures At(w, Scene(ReadBuf(0, 0, 12), TxRx, Batch(0, 0)[1..], 0, 9, 0, true, [], 0, {}, 0, 0, 9))
  {
    hide At, Batch;
    var w0 := Opening();
    var w1 := RecordSeen(w0, AtRest());
    var x1 := AtRest().(ir := {RECV}, wr := 9, running := ReadSir(false), dma := TxRx);
    var w2 := SirRead(w1, x1);
    var x2 := x1.(running := ReadSoc(0));
    var w3 := SocFindsData(w2, x2);
    var x3 := x2.(running := ClearIr(0, {RECV}), dma := Tx, queue := Batch(0, 0), rsr := 9, receiving := true);
    w := Acknowledged(w3, x3, 0);
  }

  /** One record, seven completions and no acceptance in between: a run from opened sockets
      into the poll of a busy command register, with nothing gone wrong. */
  lemma PollReached()
    ensures exists w :: Reachable(w) && Clean(w) && BusyPoll(w.d) && |w.d.queue| == 2
  {
    hide At, RecvTail, Batch;
    var w0 := FirstFetch();
    var x0 := Scene(ReadBuf(0, 0, 12), TxRx, Batch(0, 0)[1..], 0, 9, 0, true, [], 0, {}, 0, 0, 9);
    var w1 := FetchOne(w0, x0, 0);
    var x1 := x0.(running := ReadCr(0), queue := RecvTail(0)[1..], rxq := [] + [Got(0)], rd := 9, chipCr := CR_RECV);
    var w2 := FoundBusy(w1, x1);
    IsPolling(w2, x1.(running := CrWrite(0, CR_RECV), cr := CR_RECV));
  }

  lemma IsPolling(w: World, x: Scene)
    requires At(w, x) && x.running == CrWrite(0, CR_RECV) && x.dma == TxRx && x.queue == RecvTail(0)[1..] && x.cr != 0
    ensures Reachable(w) && Clean(w) && BusyPoll(w.d) && |w.d.queue| == 2
  {
    hide Reachable, ValidChip;
    assert x.queue == [CrWrite(0, CR_RECV), CheckRcv(0)];
  }

  /** A failure there is possible and queues the command twice. */
  lemma PollFailureReached()
    ensures exists w :: Reachable(w) && Shape(w) && Polling(w.d) && Enabled(w, AsyncFailure)
                        && Pending(Step(w, AsyncFailure).d) == [w.d.running] + Pending(w.d)
  {
    hide Reachable, Clean, Pending;
    PollReached();
    var w :| Reachable(w) && Clean(w) && BusyPoll(w.d) && |w.d.queue| == 2;
    ReachableInv(w);
    FailureRepeatsOnlyPolls(w.d);
  }

  lemma ReachableInv(w: World)
    requires Reachable(w) && Clean(w)
    ensures Inv(w) && Shape(w) && SchedInv(w.d)
  {
    hide Inv, Clean, Init, Step;
    var states, events :| Run(states, events) && states[|events|] == w;
    RunKeeps(states, events, |events|);
    InvShape(w);
  }

  lemma InvShape(w: World)
    requires Inv(w)
    ensures Shape(w) && SchedInv(w.d)
  {
    hide LInv;
  }

  /** Two records, the second with its INT edge missed and fetched by the check after the
      first; then a timer tick finds its old flag. */
  lemma IntoWindow() returns (w: World, x: Scene)
    ensures At(w, x) && x.running == ClearIr(0, {RECV}) && x.dma == Tx && x.queue == [] && x.ir == {RECV}
    ensures x.rsr == 0 && !x.receiving && x.rd == x.rel == x.wr == 18
  {
    hide At, RecvTail, Batch;
    var w0 := FirstFetch();
    var x0 := Scene(ReadBuf(0, 0, 12), TxRx, Batch(0, 0)[1..], 0, 9, 0, true, [], 0, {}, 0, 0, 9);
    var w1 := RecordArrives(w0, x0);
    var x1 := x0.(ir := {} + {RECV}, wr := 18);
    var w2 := FetchOne(w1, x1, 0);
    var x2 := x1.(running := ReadCr(0), queue := RecvTail(0)[1..], rxq := [] + [Got(0)], rd := 9, chipCr := CR_RECV);
    var w3 := ReleaseAll(w2, x2);
    var x3 := x2.(running := CheckRcv(0), queue := [], chipCr := 0, rel := 9);
    var w4 := CheckFindsData(w3, x3);
    var x4 := x3.(running := ReadBuf(0, 12, 12), queue := Batch(12, 9)[1..], rsr := 9, mrd := ToU16(9));
    var w5 := FetchOne(w4, x4, 12);
    var x5 := x4.(running := ReadCr(0), queue := RecvTail(0)[1..], rxq := [] + [Got(0)] + [Got(12)], rd := 18,
                  chipCr := CR_RECV);
    var w6 := ReleaseAll(w5, x5);
    var x6 := x5.(running := CheckRcv(0), queue := [], chipCr := 0, rel := 18);
    var w7 := CheckFindsNothing(w6, x6);
    var x7 := x6.(running := Idle, dma := NoDma, rsr := 0, mrd := ToU16(18), receiving := false);
    var w8 := TimerReads(w7, x7);
    var x8 := x7.(running := ReadSir(true), dma := TxRx);
    var w9 := SirRead(w8, x8);
    var x9 := x8.(running := ReadSoc(0));
    w := SocFindsNothing(w9, x9);
    x := x9.(running := ClearIr(0, {RECV}), dma := Tx, cr := 0);
  }

  lemma InWindow(w: World, x: Scene)
    requires At(w, x) && x.running == ClearIr(0, {RECV}) && x.rsr == 0 && !x.receiving && x.dma == Tx
    ensures Reachable(w) && Clean(w) && StaleRecv(w.d, 0)
    ensures x.wr + 9 <= x.rel + 2048 ==> Enabled(w, ChipStep(0, Arrive(RECORD), false, true))
  {
    hide Reachable, ValidChip, Whole;
    RecordIsWhole();
  }

  /** A run into the stale window, in which data can arrive, with nothing gone wrong. */
  lemma WindowReached()
    ensures exists w :: Reachable(w) && Clean(w) && Shape(w) && StaleRecv(w.d, 0)
                        && Enabled(w, ChipStep(0, Arrive(RECORD), false, true))
  {
    hide Reachable, Clean, StaleRecv, Enabled, Front, Quiet;
    var w, x := IntoWindow();
    InWindow(w, x);
  }

  /** The acknowledgement reaches the chip and nothing is left to do. */
  lemma AcknowledgedLast(w: World, x: Scene) returns (w': World)
    requires At(w, x) && x.running == ClearIr(0, {RECV}) && x.dma == Tx && x.queue == [] && x.ir == {RECV}
    ensures At(w', x.(running := Idle, dma := NoDma, ir := {}))
  {
    hide Reachable;
    w' := Step(w, Complete(true));
    Onto(w, Complete(true), x.(running := Idle, dma := NoDma, ir := {}));
  }

  lemma IsAsleep(w: World, x: Scene)
    requires At(w, x) && x.ir == {} && x.rsr == 0 && !x.receiving && x.rd < x.wr
    ensures Reachable(w) && Clean(w) && Shape(w) && Asleep(w, 0)
  {
    hide Reachable, ValidChip;
  }

  /** A third record in the window: a run into sleep, with nothing gone wrong. */
  lemma SleepReached()
    ensures exists w :: Reachable(w) && Clean(w) && Shape(w) && Asleep(w, 0)
  {
    hide At, Reachable, Clean, Asleep;
    var w0, x0 := IntoWindow();
    var w1 := RecordArrives(w0, x0);
    var x1 := x0.(ir := {RECV} + {RECV}, wr := 27);
    var w2 := AcknowledgedLast(w1, x1);
    IsAsleep(w2, x1.(running := Idle, dma := NoDma, ir := {}));
  }
}
