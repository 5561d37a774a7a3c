/** The chip's own steps keep the one-socket invariant. */
module ChipSteps {
  import opened Bytes
  import opened Spi
  import opened RingAlloc
  import opened DriverSpec
  import opened Chip
  import opened World
  import opened LocalInv
  import opened Records

  function AfterChip(l: Local, e: ChipEvent): Local
    requires ValidChip(l.ch) && CanHappen(l.ch, e)
  {
    var stale := RECV in l.ack && !l.sk.receiving && l.sk.reg.rxRsr == 0;
    l.(ch := AfterEvent(l.ch, e), h := l.h.(lateData := l.h.lateData || (e.Arrive? && stale)))
  }

  lemma AcceptSendTransmits(s: SockNo, l: Local)
    requires LInv(s, l) && l.ch.cr == CR_SEND
    ensures TxInv(s, AfterChip(l, Accept))
  {
    hide RxInv, Awake, RingRead, Payload, Layout, Header, Take, SendBatch;
    var l' := AfterChip(l, Accept);
    var g := l.sk.txq[0];
    assert MsgOf(l.sk.txBuf, g) == l.h.accepted[Done(l) + 0];
    assert l'.ch.sent == l.ch.sent + [l.h.accepted[Done(l)]];
    assert l'.ch.sent == l.h.accepted[..Done(l) + 1];
    assert TxCarried(l');
  }

  lemma AcceptSendKeeps(s: SockNo, l: Local)
    requires LInv(s, l) && l.ch.cr == CR_SEND
    ensures LInv(s, AfterChip(l, Accept))
  {
    hide RxAt, UdpAt, RxMemory, TxStage, TxCarried, RingRead;
    AcceptSendTransmits(s, l);
    RxFrame(s, l, AfterChip(l, Accept));
  }

  lemma AcceptRecvReleases(s: SockNo, l: Local)
    requires ValidChip(l.ch) && RxInv(s, l) && l.ch.cr == CR_RECV
    ensures RxInv(s, AfterChip(l, Accept))
  {
    hide RxAt, UdpAt, RingRead;
    var ch := l.ch;
    RingReadPart(ch.rxMem, ch.rxRel, ch.rxWr - ch.rxRel, ch.rxRd - ch.rxRel, ch.rxWr - ch.rxRel);
    TailOf(ch.arrived, ch.rxRel, ch.rxRd);
    AcceptRecvPoint(s, l);
  }

  lemma AcceptRecvPoint(s: SockNo, l: Local)
    requires ValidChip(l.ch) && RxInv(s, l) && l.ch.cr == CR_RECV
    ensures exists p :: RxAt(s, AfterChip(l, Accept), p) && UdpAt(AfterChip(l, Accept), p)
  {
    hide Layout, Payloads, Take, RingRead, RxMemory, Header, SetU16, Whole, Parse;
    var p :| RxAt(s, l, p) && UdpAt(l, p);
    RxReframe(s, l, AfterChip(l, Accept), p);
    assert UdpAt(AfterChip(l, Accept), p);
  }

  lemma AcceptOtherKeeps(s: SockNo, l: Local)
    requires LInv(s, l) && l.ch.cr != 0 && l.ch.cr != CR_SEND
    ensures LInv(s, AfterChip(l, Accept))
  {
    hide RxAt, RxMemory, TxStage, TxCarried;
    var l' := AfterChip(l, Accept);
    if l.ch.cr == CR_RECV { AcceptRecvReleases(s, l); } else { RxFrame(s, l, l'); }
    TxFrame(s, l, l');
  }

  lemma ArriveStores(l: Local, data: seq<byte>)
    requires ValidChip(l.ch) && RxMemory(l.ch) && CanHappen(l.ch, Arrive(data))
    ensures RxMemory(AfterChip(l, Arrive(data)).ch)
  {
    var ch' := AfterChip(l, Arrive(data)).ch;
    RingAppend(l.ch.rxMem, l.ch.rxRel, l.ch.rxWr, data);
    assert ch'.arrived[ch'.rxRel..ch'.rxWr] == l.ch.arrived[l.ch.rxRel..l.ch.rxWr] + data;
  }

  lemma ArriveKeepsRecords(l: Local, data: seq<byte>, p: RxPoint)
    requires ValidChip(l.ch) && UdpAt(l, p) && CanHappen(l.ch, Arrive(data))
    requires l.ch.mode == Udp ==> Whole(data)
    requires p.Quiet? ==> l.sk.reg.rxRsr <= l.ch.rxWr - l.ch.rxRel
    ensures UdpAt(AfterChip(l, Arrive(data)), p)
  {
    hide Payload, RingWrite, Parse, Whole;
    var all, all' := l.ch.arrived, AfterChip(l, Arrive(data)).ch.arrived;
    if l.ch.mode == Udp {
      WholeJoin(all, data);
      assert all'[..l.ch.rxRd] == all[..l.ch.rxRd];
      if p.Quiet? { var k := l.ch.rxRd + l.sk.reg.rxRsr; assert all'[..k] == all[..k]; }
      if p.Reserved? || p.Committed? { var k := l.ch.rxRd + p.n; assert all'[..k] == all[..k]; }
    }
  }

  lemma ArriveKeepsPoint(s: SockNo, l: Local, data: seq<byte>)
    requires ValidChip(l.ch) && RxInv(s, l) && CanHappen(l.ch, Arrive(data))
    requires l.ch.mode == Udp ==> Whole(data)
    ensures exists p :: RxAt(s, AfterChip(l, Arrive(data)), p) && UdpAt(AfterChip(l, Arrive(data)), p)
  {
    hide Layout, RingWrite, RxMemory, RxAt, UdpAt, Whole, Taken;
    var p :| RxAt(s, l, p) && UdpAt(l, p);
    var l' := AfterChip(l, Arrive(data));
    PointFacts(s, l, p);
    TakenStays(l, l', PosOf(l, p));
    RxReframe(s, l, l', p);
    ArriveKeepsRecords(l, data, p);
  }

  lemma PointFacts(s: SockNo, l: Local, p: RxPoint)
    requires RxAt(s, l, p)
    ensures Taken(l, PosOf(l, p)) && Layout(LiveRx(l, p), |l.sk.rxBuf|)
    ensures p.Quiet? ==> l.sk.reg.rxRsr <= l.ch.rxWr - l.ch.rxRel
  {
    hide Layout, Take, Taken, Header, SetU16;
  }

  lemma TakenStays(l: Local, l': Local, pos: nat)
    requires Taken(l, pos) && l'.sk == l.sk && l'.h.taken == l.h.taken && l.ch.arrived <= l'.ch.arrived
    ensures Taken(l', pos)
  {
    hide Payloads;
    assert l'.ch.arrived[..pos] == l.ch.arrived[..pos];
  }

  lemma ArriveKeeps(s: SockNo, l: Local, data: seq<byte>)
    requires LInv(s, l) && CanHappen(l.ch, Arrive(data))
    requires l.ch.mode == Udp ==> Whole(data)
    ensures LInv(s, AfterChip(l, Arrive(data)))
  {
    hide RxAt, UdpAt, RxMemory, TxStage, TxCarried, RingWrite;
    ArriveStores(l, data);
    ArriveKeepsPoint(s, l, data);
    TxFrame(s, l, AfterChip(l, Arrive(data)));
  }

  lemma SendDoneSignals(s: SockNo, l: Local, ok: bool)
    requires LInv(s, l) && l.ch.transmitting && (!ok ==> l.ch.mode == Udp)
    ensures TxInv(s, AfterChip(l, SendDone(ok)))
  {
    hide RxInv, CrInv, Awake, Layout, RingRead, Payload, Header, Take, SendBatch;
    assert TxUnderWay(AfterChip(l, SendDone(ok)));
    assert TxCarried(AfterChip(l, SendDone(ok)));
  }

  lemma SendDoneKeeps(s: SockNo, l: Local, ok: bool)
    requires LInv(s, l) && l.ch.transmitting && (!ok ==> l.ch.mode == Udp)
    ensures LInv(s, AfterChip(l, SendDone(ok)))
  {
    hide RxAt, UdpAt, RxMemory, TxStage, TxCarried;
    SendDoneSignals(s, l, ok);
    RxFrame(s, l, AfterChip(l, SendDone(ok)));
  }

  lemma FreedKeeps(s: SockNo, l: Local, n: nat)
    requires LInv(s, l) && CanHappen(l.ch, Freed(n))
    ensures LInv(s, AfterChip(l, Freed(n)))
  {
    hide RxAt, UdpAt, RxMemory, TxStage, TxCarried;
    var l' := AfterChip(l, Freed(n));
    RxFrame(s, l, l');
    FreedTx(s, l, n);
  }

  lemma FreedTx(s: SockNo, l: Local, n: nat)
    requires StaticInv(l) && TxInv(s, l) && CanHappen(l.ch, Freed(n))
    ensures TxInv(s, AfterChip(l, Freed(n)))
  {
    hide Layout, RingRead, Payload, Header, Take, SendBatch;
    assert TxCarried(AfterChip(l, Freed(n)));
  }

  lemma PeerFinKeeps(s: SockNo, l: Local)
    requires LInv(s, l) && CanHappen(l.ch, PeerFin)
    ensures LInv(s, AfterChip(l, PeerFin))
  {
    hide RxAt, UdpAt, RxMemory, TxStage, TxCarried;
    var l' := AfterChip(l, PeerFin);
    RxFrame(s, l, l');
    TxFrame(s, l, l');
  }

  lemma ChipKeeps(s: SockNo, l: Local, e: ChipEvent)
    requires LInv(s, l) && CanHappen(l.ch, e)
    requires e == SendDone(false) ==> l.ch.mode == Udp
    requires e.Arrive? && l.ch.mode == Udp ==> Whole(e.data)
    ensures LInv(s, AfterChip(l, e))
  {
    match e {
      case Accept =>
        if l.ch.cr == CR_SEND { AcceptSendKeeps(s, l); } else { AcceptOtherKeeps(s, l); }
      case SendDone(ok) => SendDoneKeeps(s, l, ok);
      case Freed(n) => FreedKeeps(s, l, n);
      case Arrive(data) => ArriveKeeps(s, l, data);
      case PeerFin => PeerFinKeeps(s, l);
    }
  }
}
