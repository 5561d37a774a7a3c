/** Steps of the send path keep the one-socket invariant. */
module TxSteps {
  import opened Bytes
  import opened Spi
  import opened RingAlloc
  import opened DriverSpec
  import opened Chip
  import opened World
  import opened LocalInv

  // ---- A task hands over a payload ---------------------------------------------------------

  function AfterEnqueue(l: Local, buf: seq<byte>, addr: seq<byte>, port: u16): Local {
    var (sk, ret) := Enqueue(l.sk, buf, addr, port);
    if ret == SOCK_OK then l.(sk := sk, h := l.h.(accepted := l.h.accepted + [Msg(buf, addr, port)])) else l
  }

  /** An accepted payload gets a place inside the buffer. */
  lemma PlaceInside(sk: Sock, buf: seq<byte>, addr: seq<byte>, port: u16)
    requires Layout(sk.txq, |sk.txBuf|) && |buf| + 3 <= |sk.txBuf| <= 32767 && Enqueue(sk, buf, addr, port).1 == SOCK_OK
    ensures var at := BufferIndex(sk.txq, |sk.txBuf|, |buf| + 3);
            && 0 <= at && at + |buf| + 3 <= |sk.txBuf|
            && Enqueue(sk, buf, addr, port).0
               == sk.(txq := sk.txq + [Seg(at, at + |buf| + 3, addr, port)], txBuf := Put(sk.txBuf, at + 3, buf),
                      clash := sk.clash || Full(sk.txq))
  {
    hide BufferIndex, Layout, Full, Put;
    IndexInside(sk.txq, |sk.txBuf|, |buf| + 3);
  }

  /** The new segment lies clear of every live one and carries the payload. */
  lemma EnqueuePlaces(l: Local, buf: seq<byte>, addr: seq<byte>, port: u16)
    requires Layout(l.sk.txq, |l.sk.txBuf|) && |l.sk.txBuf| <= 32767
    requires 0 < |buf| && |buf| + 3 <= |l.sk.txBuf|
    requires Enqueue(l.sk, buf, addr, port).1 == SOCK_OK && !Enqueue(l.sk, buf, addr, port).0.clash
    ensures var sk := Enqueue(l.sk, buf, addr, port).0;
            var g := sk.txq[|l.sk.txq|];
            && sk.txq == l.sk.txq + [g] && Layout(sk.txq, |l.sk.txBuf|)
            && g.start + |buf| + 3 == g.end
            && MsgOf(sk.txBuf, g) == Msg(buf, addr, port)
            && forall i :: 0 <= i < |l.sk.txq| ==> SegBytes(sk.txBuf, l.sk.txq[i]) == SegBytes(l.sk.txBuf, l.sk.txq[i])
  {
    var sk := Enqueue(l.sk, buf, addr, port).0;
    var q := l.sk.txq;
    var g := sk.txq[|q|];
    PlaceInside(l.sk, buf, addr, port);
    hide BufferIndex, Enqueue, Full, Layout, Put;
    AllocateKeepsLayout(q, |l.sk.txBuf|, g);
    LayoutDisjoint(sk.txq, |l.sk.txBuf|);
    EachPlace(sk.txq, |l.sk.txBuf|, |q|);
    TakePut(l.sk.txBuf, g.start + 3, buf);
    forall i | 0 <= i < |q|
      ensures SegBytes(sk.txBuf, q[i]) == SegBytes(l.sk.txBuf, q[i])
    {
      assert Disjoint(sk.txq[i], sk.txq[|q|]);
      if q[i].start <= q[i].end {
        TakeElsewhere(l.sk.txBuf, g.start + 3, buf, q[i].start, q[i].end - q[i].start);
      }
    }
  }

  lemma EachPlace(segs: seq<Seg>, n: nat, i: nat)
    requires Layout(segs, n) && i < |segs|
    ensures segs[i].start < segs[i].end <= n
  {
    assert PlaceOk(segs, i, n);
  }

  /** Live segments keep their bytes, so the send path sees only a longer queue. */
  lemma LongerQueue(s: SockNo, l: Local, l': Local, g: Seg, m: Msg)
    requires StaticInv(l) && TxInv(s, l)
    requires l' == l.(sk := l.sk.(txq := l.sk.txq + [g], txBuf := l'.sk.txBuf, clash := l'.sk.clash),
                      h := l.h.(accepted := l.h.accepted + [m]))
    requires |l'.sk.txBuf| == |l.sk.txBuf| && Layout(l'.sk.txq, |l'.sk.txBuf|) && g.start + 3 < g.end
    requires MsgOf(l'.sk.txBuf, g) == m && (l.ch.mode == Tcp ==> m.addr == [] && m.port == 0)
    requires forall i :: 0 <= i < |l.sk.txq| ==> SegBytes(l'.sk.txBuf, l.sk.txq[i]) == SegBytes(l.sk.txBuf, l.sk.txq[i])
    ensures Filled(l'.sk.txq) && TxInv(s, l')
  {
    hide Payload, Take, RingRead, Header, SendBatch, TxQuiet, TxLoading, TxOrdered, TxUnderWay, SegBytes, Layout;
    var q, k := l.sk.txq, Done(l);
    forall i | 0 <= i < |l'.sk.txq|
      ensures MsgOf(l'.sk.txBuf, l'.sk.txq[i]) == l'.h.accepted[k + i]
    {
      if i < |q| {
        EachPlace(q, |l.sk.txBuf|, i);
        SegBytesParts(l.sk.txBuf, l'.sk.txBuf, q[i]);
        assert MsgOf(l.sk.txBuf, q[i]) == l.h.accepted[k + i];
      }
    }
    assert l'.h.accepted[..k] == l.h.accepted[..k];
    if l.sk.sending {
      EachPlace(q, |l.sk.txBuf|, 0);
      SegBytesParts(l.sk.txBuf, l'.sk.txBuf, q[0]);
      assert l'.h.accepted[..k + 1] == l.h.accepted[..k + 1];
    }
    TxHeadFrame(s, l, l');
  }

  lemma {:induction false} EnqueueKeeps(s: SockNo, l: Local, buf: seq<byte>, addr: seq<byte>, port: u16)
    requires LInv(s, l) && buf != [] && !TooLarge(l.sk, buf)
    requires l.ch.mode == Tcp ==> addr == [] && port == 0
    requires !AfterEnqueue(l, buf, addr, port).sk.clash
    ensures LInv(s, AfterEnqueue(l, buf, addr, port))
  {
    hide RxAt, RxMemory, TxStage, Layout, BufferIndex;
    var (sk, ret) := Enqueue(l.sk, buf, addr, port);
    if ret == SOCK_OK {
      var l' := AfterEnqueue(l, buf, addr, port);
      EnqueuePlaces(l, buf, addr, port);
      LongerQueue(s, l, l', sk.txq[|l.sk.txq|], Msg(buf, addr, port));
      RxFrame(s, l, l');
    }
  }

  // ---- sendPendingData -----------------------------------------------------------------------

  function CrPart(cs: seq<Cmd>, c: Cmd): seq<Cmd> {
    if cs == [] then [] else [c]
  }

  function AfterSendPlan(s: SockNo, l: Local): Local {
    var (sk, cs) := SendPlan(l.sk, s);
    l.(sk := sk, tx := l.tx + cs, cr := l.cr + CrPart(cs, CrWrite(s, CR_SEND)))
  }

  /** Writing the header in front of the oldest payload changes no payload. */
  lemma HeaderKeepsPayloads(buf: seq<byte>, segs: seq<Seg>, h: seq<byte>, i: nat)
    requires Layout(segs, |buf|) && Filled(segs) && i < |segs| && |h| == 3
    ensures Payload(Put(buf, segs[0].start, h), segs[i]) == Payload(buf, segs[i])
  {
    LayoutDisjoint(segs, |buf|);
    assert PlaceOk(segs, 0, |buf|) && PlaceOk(segs, i, |buf|);
    if i > 0 { assert Disjoint(segs[0], segs[i]); }
    TakeElsewhere(buf, segs[0].start, h, segs[i].start + 3, segs[i].end - segs[i].start - 3);
  }

  lemma BatchSize(s: SockNo, mode: Mode, g: Seg, txWr: u16)
    requires g.start <= g.end
    ensures |SendBatch(s, mode, g, txWr)| == if mode == Udp then 5 else 3
  {
  }

  lemma SendPlanCarries(s: SockNo, l: Local)
    requires Filled(l.sk.txq) && TxCarried(l) && SendPlan(l.sk, s).1 != []
    ensures TxCarried(AfterSendPlan(s, l))
  {
    hide Payload, Put, Header, Layout, SendBatch;
    var l' := AfterSendPlan(s, l);
    var q := l.sk.txq;
    var h := Header(l.sk.reg.txWr, TxBlock(s), true);
    forall i | 0 <= i < |q|
      ensures MsgOf(l'.sk.txBuf, q[i]) == l'.h.accepted[Done(l') + i]
    {
      HeaderKeepsPayloads(l.sk.txBuf, q, h, i);
      assert MsgOf(l.sk.txBuf, q[i]) == l.h.accepted[Done(l) + i];
    }
  }

  lemma SendPlanLoads(s: SockNo, l: Local)
    requires StaticInv(l) && TxInv(s, l) && SendPlan(l.sk, s).1 != []
    ensures TxInv(s, AfterSendPlan(s, l))
  {
    hide RingRead, Payload, Put, Take, Header, Layout, SendBatch, TxCarried, TxOrdered, TxUnderWay;
    SendPlanCarries(s, l);
    LayoutOf(l);
    var l' := AfterSendPlan(s, l);
    var q := l.sk.txq;
    EachPlace(q, |l.sk.txBuf|, 0);
    TakePut(l.sk.txBuf, q[0].start, Header(l.sk.reg.txWr, TxBlock(s), true));
    BatchSize(s, l.ch.mode, q[0], ToU16(l.ch.txRd));
    assert l'.tx == SendBatch(s, l.ch.mode, q[0], ToU16(l.ch.txRd));
    assert TxLoading(s, l');
  }

  lemma LayoutOf(l: Local)
    requires TxCarried(l)
    ensures Done(l) >= 0 && Layout(l.sk.txq, |l.sk.txBuf|)
  {
  }

  lemma SendPlanKeeps(s: SockNo, l: Local)
    requires LInv(s, l)
    ensures LInv(s, AfterSendPlan(s, l))
  {
    hide RxAt, RxMemory, TxStage, TxCarried, Layout, Put, Header, RingRead;
    var l' := AfterSendPlan(s, l);
    if SendPlan(l.sk, s).1 == [] {
      assert l' == l;
    } else {
      SendPlanLoads(s, l);
      RxFrame(s, l, l');
    }
  }

  // ---- Completions of the send batch ---------------------------------------------------------

  /** The head of the send lane, a plain transfer, is done. */
  function AfterTxWrite(l: Local): Local
    requires l.tx != [] && |l.ch.txMem| > 0
  {
    l.(tx := l.tx[1..], ch := AfterWrite(l.ch, l.tx[0], l.sk.txBuf))
  }

  /** The k last commands of a batch: the first of them and the others. */
  lemma BatchTail(s: SockNo, mode: Mode, g: Seg, txWr: u16, k: nat)
    requires g.start <= g.end && 0 < k <= |SendBatch(s, mode, g, txWr)|
    ensures var batch := SendBatch(s, mode, g, txWr);
            var tail := batch[|batch| - k..];
            && tail[1..] == batch[|batch| - (k - 1)..]
            && tail[0] == match k
                          case 5 => WriteReg(s, Sn_DIPR, g.addr)
                          case 4 => WriteReg(s, Sn_DPORT, SetU16(g.port))
                          case 3 => WriteBuf(s, g.start, g.end - g.start)
                          case 2 => WriteReg(s, Sn_TX_WR, SetU16(txWr + (g.end - g.start) - 3))
                          case _ => CrWrite(s, CR_SEND)
  {
    hide SetU16;
    var batch := SendBatch(s, mode, g, txWr);
    assert batch[|batch| - k..][0] == batch[|batch| - k];
  }

  /** Which command heads a partly done batch. */
  lemma LoadingHead(s: SockNo, l: Local)
    requires StaticInv(l) && TxInv(s, l) && l.tx != []
    ensures l.sk.sending && l.sk.txq != [] && TxLoading(s, l) && |l.tx| <= 5
    ensures var q, n := l.sk.txq[0], HeadLen(l);
            l.tx[0] == match |l.tx|
                       case 5 => WriteReg(s, Sn_DIPR, q.addr)
                       case 4 => WriteReg(s, Sn_DPORT, SetU16(q.port))
                       case 3 => WriteBuf(s, q.start, n + 3)
                       case 2 => WriteReg(s, Sn_TX_WR, SetU16(ToU16(l.ch.txRd) + n))
                       case _ => CrWrite(s, CR_SEND)
    ensures |l.tx| >= 4 ==> l.ch.mode == Udp
    ensures var batch := SendBatch(s, l.ch.mode, l.sk.txq[0], ToU16(l.ch.txRd));
            |l.tx| <= |batch| && l.tx[1..] == batch[|batch| - (|l.tx| - 1)..]
  {
    hide Layout, RingRead, Payload, Take, Header, SetU16, ToU16, TxCarried, SendBatch;
    BatchSize(s, l.ch.mode, l.sk.txq[0], ToU16(l.ch.txRd));
    BatchTail(s, l.ch.mode, l.sk.txq[0], ToU16(l.ch.txRd), |l.tx|);
  }

  /** What the completion of one transfer of the batch must establish for the next stage. */
  lemma NextLoading(s: SockNo, l: Local, l': Local)
    requires StaticInv(l) && TxInv(s, l) && |l.tx| >= 2
    requires l' == l.(tx := l.tx[1..], ch := l'.ch) && ValidChip(l'.ch)
    requires l'.ch == l.ch.(txMem := l'.ch.txMem, txWr := l'.ch.txWr, dip := l'.ch.dip, dport := l'.ch.dport)
    requires |l'.ch.txMem| == |l.ch.txMem| && l.sk.txq != []
    requires l'.ch.txWr == if |l.tx| == 2 then l.ch.txRd + HeadLen(l) else l.ch.txWr
    requires |l.tx| <= 3 ==> Stored(l') && l'.ch.dip == l.ch.dip && l'.ch.dport == l.ch.dport
    requires |l.tx| == 5 ==> l'.ch.dip == l.sk.txq[0].addr
    requires |l.tx| == 4 ==> l'.ch.dip == l.ch.dip && l'.ch.dport == l.sk.txq[0].port
    ensures TxInv(s, l')
  {
    hide Layout, Stored, SendBatch, RingRead, Header, Payload, Take, SetU16, ToU16;
    LoadingHead(s, l);
    assert TxCarried(l');
    assert TxLoading(s, l');
  }

  predicate PlainTxHead(l: Local) {
    l.tx != [] && !(l.tx[0].WriteReg? && l.tx[0].off == Sn_CR)
  }

  /** Only the send side of the chip changed. */
  predicate TxOnly(l: Local, l': Local) {
    && l' == l.(tx := l'.tx, ch := l'.ch)
    && l'.ch == l.ch.(txMem := l'.ch.txMem, txWr := l'.ch.txWr, dip := l'.ch.dip, dport := l'.ch.dport)
  }

  lemma TxOnlyKeeps(s: SockNo, l: Local, l': Local)
    requires LInv(s, l) && TxOnly(l, l') && ValidChip(l'.ch) && TxInv(s, l')
    ensures LInv(s, l')
  {
    hide RxAt, RxMemory, TxStage, TxCarried;
    RxFrame(s, l, l');
  }

  lemma AddressWritten(s: SockNo, l: Local)
    requires StaticInv(l) && TxInv(s, l) && |l.tx| == 5
    ensures var l' := AfterTxWrite(l); TxOnly(l, l') && ValidChip(l'.ch) && TxInv(s, l')
  {
    LoadingHead(s, l);
    NextLoading(s, l, AfterTxWrite(l));
  }

  lemma PortWritten(s: SockNo, l: Local)
    requires StaticInv(l) && TxInv(s, l) && |l.tx| == 4
    ensures var l' := AfterTxWrite(l); TxOnly(l, l') && ValidChip(l'.ch) && TxInv(s, l')
  {
    LoadingHead(s, l);
    U16RoundTrip(l.sk.txq[0].port);
    NextLoading(s, l, AfterTxWrite(l));
  }

  /** The buffer transfer carries its own address and lands just after what was written. */
  lemma {:induction false} BufferLands(s: SockNo, ch: ChipSock, buf: seq<byte>, g: Seg)
    requires MemSize(|ch.txMem|) && g.start + 3 < g.end <= |buf|
    requires Take(buf, g.start, 3) == Header(ToU16(ch.txWr), TxBlock(s), true)
    ensures AfterWrite(ch, WriteBuf(s, g.start, g.end - g.start), buf)
            == ch.(txMem := RingWrite(ch.txMem, ch.txWr, Payload(buf, g)))
  {
    HeaderRoundTrip(ToU16(ch.txWr), TxBlock(s), true);
    assert buf[g.start..g.start + 3] == Take(buf, g.start, 3);
    RingWriteAddress16(ch.txMem, ch.txWr, Payload(buf, g));
  }

  lemma PayloadSize(buf: seq<byte>, g: Seg)
    requires g.start + 3 < g.end <= |buf|
    ensures |Payload(buf, g)| == g.end - g.start - 3
  {
  }

  lemma PayloadWritten(s: SockNo, l: Local)
    requires StaticInv(l) && TxInv(s, l) && |l.tx| == 3
    ensures var l' := AfterTxWrite(l); TxOnly(l, l') && ValidChip(l'.ch) && TxInv(s, l')
  {
    hide RingWrite, RingRead, Payload, Header, Take, Layout, SendBatch, AfterWrite;
    LoadingHead(s, l);
    var g := l.sk.txq[0];
    EachPlace(l.sk.txq, |l.sk.txBuf|, 0);
    BufferLands(s, l.ch, l.sk.txBuf, g);
    PayloadSize(l.sk.txBuf, g);
    RingReadWritten(l.ch.txMem, l.ch.txWr, Payload(l.sk.txBuf, g));
    NextLoading(s, l, AfterTxWrite(l));
  }

  lemma WritePointerMoved(s: SockNo, l: Local)
    requires StaticInv(l) && TxInv(s, l) && |l.tx| == 2
    ensures var l' := AfterTxWrite(l); TxOnly(l, l') && ValidChip(l'.ch) && TxInv(s, l')
  {
    LoadingHead(s, l);
    var n := HeadLen(l);
    U16RoundTrip(ToU16(l.ch.txRd) + n);
    AdvanceShown(l.ch.txRd, n);
    NextLoading(s, l, AfterTxWrite(l));
  }

  lemma {:induction false} TxWriteKeeps(s: SockNo, l: Local)
    requires LInv(s, l) && PlainTxHead(l)
    ensures LInv(s, AfterTxWrite(l))
  {
    hide RxAt, RxMemory, TxStage, TxCarried, AfterWrite, SendBatch;
    LoadingHead(s, l);
    if |l.tx| == 5 { AddressWritten(s, l); }
    else if |l.tx| == 4 { PortWritten(s, l); }
    else if |l.tx| == 3 { PayloadWritten(s, l); }
    else { WritePointerMoved(s, l); }
    TxOnlyKeeps(s, l, AfterTxWrite(l));
  }

  /** Flow control: a payload transfer leaves every byte that the chip has not freed. */
  lemma {:induction false} PayloadSparesUnsent(s: SockNo, l: Local)
    requires LInv(s, l) && l.tx != [] && l.tx[0].WriteBuf?
    ensures var ch, ch' := l.ch, AfterTxWrite(l).ch;
            RingRead(ch'.txMem, ch.txFree, ch.txWr - ch.txFree) == RingRead(ch.txMem, ch.txFree, ch.txWr - ch.txFree)
  {
    hide RxInv, CrInv, Awake, RingWrite, RingRead, AfterWrite, Payload, Take, Header, Layout, SendBatch;
    LoadingHead(s, l);
    var g := l.sk.txq[0];
    EachPlace(l.sk.txq, |l.sk.txBuf|, 0);
    BufferLands(s, l.ch, l.sk.txBuf, g);
    PayloadSize(l.sk.txBuf, g);
    RingReadBefore(l.ch.txMem, l.ch.txFree, l.ch.txWr, Payload(l.sk.txBuf, g));
  }

  // ---- The end of a send ---------------------------------------------------------------------

  /** READ_SOC acts on SENDOK or TIMEOUT: the sent segment is dropped and the raised flags
      are on their way to being cleared. */
  function AfterSent(l: Local): Local {
    l.(ack := l.ch.ir, sk := PopSent(l.sk))
  }

  predicate MirrorsTx(l: Local) {
    l.sk.reg.txWr == ToU16(l.ch.txWr) && l.sk.reg.txFsr == TxFsr(l.ch)
  }

  lemma EndSeen(s: SockNo, l: Local)
    requires StaticInv(l) && TxInv(s, l) && l.ack == {} && (SENDOK in l.ch.ir || TIMEOUT in l.ch.ir)
    ensures l.sk.sending && l.sk.txq != [] && TxUnderWay(l) && !l.ch.transmitting
    ensures SENDOK in l.ch.ir <==> TIMEOUT !in l.ch.ir
  {
  }

  lemma SentKeepsTx(s: SockNo, l: Local)
    requires StaticInv(l) && TxInv(s, l) && l.ack == {} && (SENDOK in l.ch.ir || TIMEOUT in l.ch.ir)
    requires MirrorsTx(l)
    ensures Filled(AfterSent(l).sk.txq) && TxInv(s, AfterSent(l))
  {
    EndSeen(s, l);
    var l' := AfterSent(l);
    PopKeepsLayout(l.sk.txq, |l.sk.txBuf|);
    forall i | 0 <= i < |l'.sk.txq|
      ensures MsgOf(l'.sk.txBuf, l'.sk.txq[i]) == l'.h.accepted[Done(l') + i]
    {
      assert MsgOf(l.sk.txBuf, l.sk.txq[i + 1]) == l.h.accepted[Done(l) + (i + 1)];
    }
    assert TxCarried(l') && TxQuiet(l');
  }
}
