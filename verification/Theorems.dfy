/** What the invariant says about every run: no byte lost, duplicated or reordered in either
    direction, and no wake-up missed. */
module Theorems {
  import opened Bytes
  import opened Spi
  import opened RingAlloc
  import opened DriverSpec
  import opened Chip
  import opened World
  import opened Lanes
  import opened LocalInv
  import opened Records
  import opened TxSteps
  import opened RxSteps
  import opened Scheduling
  import opened Invariant
  import opened Completion
  import opened ReadCompletion
  import opened Runs

  /** A state of a run in which nothing has gone wrong so far. */
  ghost predicate Reached(states: seq<World>, events: seq<Event>, i: nat) {
    Run(states, events) && i < |states| && Clean(states[i])
  }

  lemma ReachedInv(states: seq<World>, events: seq<Event>, i: nat, s: SockNo)
    requires Reached(states, events, i)
    ensures i < |states| && Shape(states[i]) && Inv(states[i]) && LInv(s, LocalOf(states[i], s))
            && ValidChip(states[i].chips[s])
  {
    hide LInv, Run, Clean;
    RunKeeps(states, events, i);
    ViewOf(states[i], s);
    LInvValid(s, LocalOf(states[i], s));
  }

  lemma {:induction false} SelMember(p: seq<Cmd>, lane: Lane, c: Cmd)
    requires c in Sel(p, lane)
    ensures c in p
  {
    if p != [] && c in Sel(p[1..], lane) { SelMember(p[1..], lane, c); }
  }

  // ---- Received bytes --------------------------------------------------------------------------

  /** The first byte that the driver still has to fetch: the read pointer, or where the
      pending Sn_RX_RD write of a fetched batch will put it. */
  function NextUnread(s: SockNo, rx: seq<Cmd>, ch: ChipSock): nat {
    if rx != [] && rx[0].WriteReg? && rx[0].off == Sn_RX_RD && |rx[0].data| >= 2
        then Advance(ch.rxRd, GetU16(rx[0].data)) else ch.rxRd
  }

  /** What of the stream is still in the chip's memory. */
  function InChip(s: SockNo, rx: seq<Cmd>, ch: ChipSock): seq<byte>
    requires ValidChip(ch)
  {
    var at := NextUnread(s, rx, ch);
    if at <= ch.rxWr then RingRead(ch.rxMem, at, ch.rxWr - at) else []
  }

  lemma NextIsPos(s: SockNo, l: Local, p: RxPoint)
    requires ValidChip(l.ch) && RxAt(s, l, p)
    ensures NextUnread(s, l.rx, l.ch) == PosOf(l, p) <= l.ch.rxWr && l.ch.rxRel <= PosOf(l, p) && Taken(l, PosOf(l, p))
  {
    hide Layout, Taken, Take, Payloads, Header;
    if p.Committed? {
      U16RoundTrip(ToU16(l.ch.rxRd) + p.n);
      AdvanceShown(l.ch.rxRd, p.n);
    }
  }

  lemma RestInMemory(ch: ChipSock, at: nat)
    requires ValidChip(ch) && RxMemory(ch) && ch.rxRel <= at <= ch.rxWr
    ensures RingRead(ch.rxMem, at, ch.rxWr - at) == ch.arrived[at..]
  {
    hide RingRead;
    RingReadPart(ch.rxMem, ch.rxRel, ch.rxWr - ch.rxRel, at - ch.rxRel, ch.rxWr - ch.rxRel);
    TailOf(ch.arrived, ch.rxRel, at);
  }

  lemma LocalConserves(s: SockNo, l: Local)
    requires ValidChip(l.ch) && RxInv(s, l)
    ensures l.h.taken + Payloads(l.sk.rxBuf, l.sk.rxq) + InChip(s, l.rx, l.ch) == l.ch.arrived
  {
    hide RxAt, UdpAt, RxMemory, Payloads, RingRead, NextUnread;
    var p :| RxAt(s, l, p) && UdpAt(l, p);
    NextIsPos(s, l, p);
    var at := PosOf(l, p);
    RestInMemory(l.ch, at);
    assert l.ch.arrived == l.ch.arrived[..at] + l.ch.arrived[at..];
  }

  /** Bytes handed out by recv, then bytes in the receive queue, then bytes still in the
      chip's memory, are exactly the bytes that have arrived, in order. */
  lemma ReceiveConservation(states: seq<World>, events: seq<Event>, i: nat, s: SockNo)
    requires Reached(states, events, i)
    ensures Shape(states[i])
    ensures var w := states[i];
            var sk, ch := w.d.socks[s], w.chips[s];
            w.hist[s].taken + Payloads(sk.rxBuf, sk.rxq) + InChip(s, Sel(Pending(w.d), RxLane(s)), ch) == ch.arrived
  {
    hide Reached, Inv, RxInv, InChip;
    ReachedInv(states, events, i, s);
    LocalConserves(s, LocalOf(states[i], s));
  }

  /** Live receive segments, the one reserved by an outstanding READ_BUF included. */
  function LiveSegments(q: seq<Seg>, rx: seq<Cmd>): seq<Seg> {
    if rx != [] && rx[0].ReadBuf? then q + [Fetched(rx[0].start, rx[0].len)] else q
  }

  lemma LiveIs(s: SockNo, l: Local, p: RxPoint)
    requires RxAt(s, l, p) && |l.sk.rxBuf| <= 32767
    ensures LiveSegments(l.sk.rxq, l.rx) == LiveRx(l, p) && Layout(LiveRx(l, p), |l.sk.rxBuf|)
  {
    hide Layout, Taken, Take, Header, Fetched;
    if p.Reserved? {
      ReservedInBounds(l.sk.rxq, Seg(p.at, p.at + p.n + 3, [], 0), |l.sk.rxBuf|);
      FetchedIs(p.at, p.n + 3);
    }
  }

  /** No two live segments of either buffer share a byte, and all lie inside it. */
  lemma SegmentsStayApart(states: seq<World>, events: seq<Event>, i: nat, s: SockNo)
    requires Reached(states, events, i)
    ensures Shape(states[i])
    ensures var w := states[i];
            var sk, live := w.d.socks[s], LiveSegments(w.d.socks[s].rxq, Sel(Pending(w.d), RxLane(s)));
            && PairwiseDisjoint(sk.txq) && (forall g :: g in sk.txq ==> InBounds(g, |sk.txBuf|))
            && PairwiseDisjoint(live) && (forall g :: g in live ==> InBounds(g, |sk.rxBuf|))
  {
    hide Reached, Inv, UdpAt, RxMemory, TxStage, RxAt, Layout, PairwiseDisjoint;
    ReachedInv(states, events, i, s);
    var l := LocalOf(states[i], s);
    var p :| RxAt(s, l, p) && UdpAt(l, p);
    LiveIs(s, l, p);
    LayoutSafe(l.sk.txq, |l.sk.txBuf|);
    LayoutSafe(LiveRx(l, p), |l.sk.rxBuf|);
  }

  lemma LayoutSafe(q: seq<Seg>, n: nat)
    requires Layout(q, n)
    ensures PairwiseDisjoint(q) && forall g :: g in q ==> InBounds(g, n)
  {
    LayoutDisjoint(q, n);
    forall i | 0 <= i < |q|
      ensures InBounds(q[i], n)
    {
      assert PlaceOk(q, i, n);
    }
  }

  // ---- Datagrams -----------------------------------------------------------------------------------

  lemma ParsePrefix(a: seq<byte>, b: seq<byte>)
    requires Whole(a) && Whole(a + b)
    ensures Whole(b) && Parse(a + b) == Parse(a) + Parse(b)
  {
    WholeRest(a, b);
    WholeJoin(a, b);
  }

  lemma {:induction false} LocalDatagrams(s: SockNo, l: Local)
    requires ValidChip(l.ch) && RxInv(s, l) && l.ch.mode == Udp
    ensures Whole(l.ch.arrived) && l.h.datagrams <= Parse(l.ch.arrived)
    ensures l.sk.rxq == [] && InChip(s, l.rx, l.ch) == [] ==> l.h.datagrams == Parse(l.ch.arrived)
  {
    hide RxAt, RxMemory, InChip, Whole, Parse;
    var p :| RxAt(s, l, p) && UdpAt(l, p);
    LocalConserves(s, l);
    var rest := Payloads(l.sk.rxBuf, l.sk.rxq) + InChip(s, l.rx, l.ch);
    assert l.h.taken + rest == l.ch.arrived;
    ParsePrefix(l.h.taken, rest);
    if l.sk.rxq == [] && InChip(s, l.rx, l.ch) == [] { assert l.h.taken + rest == l.h.taken; }
  }

  /** On a UDP socket the datagrams returned by recvfrom are the first ones that arrived, in
      order, and all of them once nothing is queued or left in the chip. */
  lemma {:induction false} DatagramsInOrder(states: seq<World>, events: seq<Event>, i: nat, s: SockNo,
                                            gs: seq<Datagram>)
    requires Reached(states, events, i) && Shape(states[i]) && states[i].chips[s].mode == Udp
    requires (forall k :: 0 <= k < |gs| ==> Proper(gs[k])) && states[i].chips[s].arrived == SerialAll(gs)
    ensures states[i].hist[s].datagrams <= gs
    ensures var w := states[i];
            w.d.socks[s].rxq == [] && InChip(s, Sel(Pending(w.d), RxLane(s)), w.chips[s]) == [] ==>
              w.hist[s].datagrams == gs
  {
    hide Reached, Inv, RxInv, InChip, SerialAll, Parse, Whole;
    ReachedInv(states, events, i, s);
    LocalDatagrams(s, LocalOf(states[i], s));
    ParseSerial(gs);
  }

  // ---- Sent payloads ---------------------------------------------------------------------------------

  lemma LocalStream(s: SockNo, l: Local)
    requires StaticInv(l) && TxInv(s, l)
    ensures Done(l) >= 0 && Done(l) <= |l.ch.sent| <= Done(l) + 1 && l.ch.sent <= l.h.accepted
    ensures forall k :: 0 <= k < |l.sk.txq| ==> MsgOf(l.sk.txBuf, l.sk.txq[k]) == l.h.accepted[Done(l) + k]
    ensures |l.ch.sent| == Done(l) + 1 ==> l.sk.sending
    ensures l.sk.sending ==> l.sk.txq != []
  {
    hide Layout, RingRead, Payload, Take, Header, SendBatch;
  }

  /** The payloads that the chip has sent are the first accepted ones, byte for byte and on
      UDP each with its own address and port; the send queue holds the accepted payloads
      that have not been confirmed; while sending, its head is the outstanding one. */
  lemma TransmitStream(states: seq<World>, events: seq<Event>, i: nat, s: SockNo)
    requires Reached(states, events, i)
    ensures Shape(states[i])
    ensures var w := states[i];
            var sk, sent, accepted := w.d.socks[s], w.chips[s].sent, w.hist[s].accepted;
            var confirmed := |accepted| - |sk.txq|;
            && sent <= accepted
            && 0 <= confirmed <= |sent| <= confirmed + (if sk.sending then 1 else 0)
            && (sk.sending ==> sk.txq != [])
            && forall k :: 0 <= k < |sk.txq| ==> MsgOf(sk.txBuf, sk.txq[k]) == accepted[confirmed + k]
  {
    hide Reached, Inv, RxInv, TxInv, CrInv, Awake, MsgOf;
    ReachedInv(states, events, i, s);
    LocalStream(s, LocalOf(states[i], s));
  }

  // ---- Wake-up -----------------------------------------------------------------------------------------

  lemma ReceivingEndsInCheck(s: SockNo, l: Local, p: RxPoint)
    requires RxAt(s, l, p)
    ensures l.sk.receiving <==> !p.Quiet?
    ensures l.sk.receiving ==> CheckRcv(s) in l.rx
  {
    hide Layout, Taken, Take, Header;
    assert RecvTail(s)[2] == CheckRcv(s);
    if !p.Quiet? { assert l.rx[|l.rx| - 1] == CheckRcv(s); }
  }

  /** Whenever the chip holds bytes that the driver has not fetched, a CHECK_RCV is pending,
      the mirrored size is positive, or RECV is still raised, provided no data arrived in
      the stale window. */
  lemma NoLostWakeup(states: seq<World>, events: seq<Event>, i: nat, s: SockNo)
    requires Reached(states, events, i)
    ensures Shape(states[i])
    ensures var w := states[i];
            !w.hist[s].lateData && w.chips[s].rxRd < w.chips[s].rxWr ==>
              || (w.d.socks[s].receiving && CheckRcv(s) in Pending(w.d))
              || w.d.socks[s].reg.rxRsr > 0
              || RECV in w.chips[s].ir
  {
    hide Reached, Inv, RxMemory, UdpAt, RxAt, TxInv, CrInv, StaticInv;
    ReachedInv(states, events, i, s);
    var w := states[i];
    var l := LocalOf(w, s);
    var p :| RxAt(s, l, p) && UdpAt(l, p);
    ReceivingEndsInCheck(s, l, p);
    if l.sk.receiving { SelMember(Pending(w.d), RxLane(s), CheckRcv(s)); }
  }

  // ---- Mirrors and flow control ----------------------------------------------------------------------------

  lemma LocalMirrors(s: SockNo, l: Local)
    requires StaticInv(l) && TxInv(s, l) && RxInv(s, l)
    ensures !l.sk.sending ==> l.sk.reg.txWr == ToU16(l.ch.txWr) && l.sk.reg.txFsr <= TxFsr(l.ch)
    ensures !l.sk.receiving ==> l.sk.reg.rxRd == ToU16(l.ch.rxRd) && l.sk.reg.rxRsr <= RxRsr(l.ch)
  {
    hide Layout, RingRead, Payload, Take, Header, SendBatch, RxMemory, UdpAt, TxCarried, RxAt;
    var p :| RxAt(s, l, p) && UdpAt(l, p);
    QuietMirrors(s, l, p);
  }

  lemma QuietMirrors(s: SockNo, l: Local, p: RxPoint)
    requires ValidChip(l.ch) && RxAt(s, l, p)
    ensures !l.sk.receiving ==> l.sk.reg.rxRd == ToU16(l.ch.rxRd) && l.sk.reg.rxRsr <= RxRsr(l.ch)
  {
    hide Layout, Taken, Take, Header;
  }

  /** While a direction is idle its mirrors show the chip's pointer and never more space or
      data than the chip has. */
  lemma MirrorsSound(states: seq<World>, events: seq<Event>, i: nat, s: SockNo)
    requires Reached(states, events, i)
    ensures Shape(states[i])
    ensures var w := states[i];
            var sk, ch := w.d.socks[s], w.chips[s];
            && (!sk.sending ==> sk.reg.txWr == ToU16(ch.txWr) && sk.reg.txFsr <= TxFsr(ch))
            && (!sk.receiving ==> sk.reg.rxRd == ToU16(ch.rxRd) && sk.reg.rxRsr <= RxRsr(ch))
  {
    hide Reached, Inv, RxInv, TxInv, CrInv, Awake;
    ReachedInv(states, events, i, s);
    LocalMirrors(s, LocalOf(states[i], s));
  }

  /** A WRITE_BUF transfer overwrites nothing that the chip has not freed. */
  lemma WriteSparesUnsent(states: seq<World>, events: seq<Event>, i: nat, s: SockNo)
    requires Reached(states, events, i) && i < |events| && events[i].Complete?
    requires states[i].d.running.WriteBuf? && states[i].d.running.sn == s && states[i].d.dma == Tx
    ensures Shape(states[i]) && |states[i + 1].chips| == SOCKETS && |states[i + 1].chips[s].txMem| > 0
    ensures var ch, ch' := states[i].chips[s], states[i + 1].chips[s];
            RingRead(ch'.txMem, ch.txFree, ch.txWr - ch.txFree) == RingRead(ch.txMem, ch.txFree, ch.txWr - ch.txFree)
  {
    hide Inv, LInv, RingRead, AfterWrite, Clean, Init, Heads;
    ReachedInv(states, events, i, s);
    var w := states[i];
    ViewOf(w, s);
    var l := LocalOf(w, s);
    BufHeads(s, l, w.d.running);
    PayloadSparesUnsent(s, l);
    TxWriteKeeps(s, l);
    LInvValid(s, AfterTxWrite(l));
    assert OneStep(states[i], events[i], states[i + 1]);
    assert states[i + 1].chips[s] == AfterTxWrite(l).ch;
  }

  lemma BufHeads(s: SockNo, l: Local, c: Cmd)
    requires Heads(l, s, c) && c.WriteBuf? && c.sn == s
    ensures l.tx != [] && l.tx[0] == c && PlainTxHead(l)
  {
  }

  // ---- Command register --------------------------------------------------------------------------------------

  /** A command-register write is in flight only while the chip's register is free, with its
      read-back queued behind it; and while the chip holds a command, either the mirror shows
      it or a read comes first. */
  lemma CommandHandshake(states: seq<World>, events: seq<Event>, i: nat, s: SockNo)
    requires Reached(states, events, i)
    ensures Shape(states[i])
    ensures var w := states[i];
            var lane := Sel(Pending(w.d), CrLane(s));
            && (CrFlying(w.d, s) ==> w.chips[s].cr == 0 && |lane| >= 2 && IsCrRead(lane[1], s))
            && (w.chips[s].cr != 0 ==> w.d.socks[s].reg.cr != 0 || (lane != [] && IsCrRead(lane[0], s)))
  {
    hide Reached, Inv, RxInv, TxInv, Awake, StaticInv;
    ReachedInv(states, events, i, s);
  }

  /** CHECK_RCV samples the received size only after the read pointer has been written and a
      RECV after it has been accepted, and no other command of its batch is left. */
  lemma CheckAfterRelease(states: seq<World>, events: seq<Event>, i: nat, s: SockNo)
    requires Reached(states, events, i) && InFlight(states[i].d) && states[i].d.running == CheckRcv(s)
    ensures Shape(states[i])
    ensures var w := states[i];
            && w.d.socks[s].receiving && w.chips[s].rxRel == w.chips[s].rxRd
            && Sel(Pending(w.d), RxLane(s)) == [CheckRcv(s)]
  {
    hide Reached, Inv, LInv, Heads;
    ReachedInv(states, events, i, s);
    var w := states[i];
    ViewOf(w, s);
    CheckHeads(s, LocalOf(w, s));
  }

  lemma CheckHeads(s: SockNo, l: Local)
    requires LInv(s, l) && Heads(l, s, CheckRcv(s))
    ensures l.rx == [CheckRcv(s)] && l.sk.receiving && l.ch.rxRel == l.ch.rxRd
  {
    hide TxInv, CrInv, Awake, RxInv;
    CheckRcvIsLast(s, l);
  }

  // ---- Interrupt flags ---------------------------------------------------------------------------------------

  /** When a READ_SOC samples the flags, no acknowledgement is pending for its socket, so that
      a raised SENDOK or TIMEOUT is new: exactly one sent payload is unconfirmed. */
  lemma FlagsActedOnOnce(states: seq<World>, events: seq<Event>, i: nat, s: SockNo)
    requires Reached(states, events, i) && InFlight(states[i].d) && states[i].d.running == ReadSoc(s)
    ensures Shape(states[i])
    ensures var w := states[i];
            && (forall k :: 0 <= k < |Pending(w.d)| ==> !Pending(w.d)[k].ClearIr?)
            && (forall k :: 0 < k < |Pending(w.d)| ==> Pending(w.d)[k] != ReadSoc(s))
            && OneEnd(w.chips[s].ir, w.chips[s].mode)
            && (Ended(w.chips[s].ir) ==> |w.chips[s].sent| == |w.hist[s].accepted| - |w.d.socks[s].txq| + 1)
  {
    hide Reached, RxInv, CrInv, Awake, SchedInv;
    ReachedInv(states, events, i, s);
    var w := states[i];
    OneEndSeen(w, s);
    InFlightHead(w);
    var l := LocalOf(w, s);
    assert Pending(w.d)[0] == ReadSoc(s);
    if Ended(w.chips[s].ir) { EndSeen(s, l); }
  }

  /** A pending acknowledgement is the very next command and clears only raised flags; every
      other pending READ_SOC is for another socket. */
  lemma AcknowledgeFirst(states: seq<World>, events: seq<Event>, i: nat, k: nat)
    requires Reached(states, events, i) && k < |Pending(states[i].d)| && Pending(states[i].d)[k].ClearIr?
    ensures Shape(states[i])
    ensures var w, c := states[i], Pending(states[i].d)[k];
            && k == 0 && c.sn < SOCKETS && c.flags <= w.chips[c.sn].ir
            && forall j :: 0 <= j < |Pending(w.d)| ==> Pending(w.d)[j] != ReadSoc(c.sn)
  {
    hide Reached, LInv, SchedInv;
    ReachedInv(states, events, i, 0);
  }
}
