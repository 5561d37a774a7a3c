/** Steps of the receive path keep the one-socket invariant. */
module RxSteps {
  import opened Bytes
  import opened Spi
  import opened RingAlloc
  import opened DriverSpec
  import opened Chip
  import opened World
  import opened LocalInv
  import opened Records

  lemma {:induction false} PayloadsAppend(buf: seq<byte>, segs: seq<Seg>, g: Seg)
    ensures Payloads(buf, segs + [g]) == Payloads(buf, segs) + Payload(buf, g)
  {
    hide Payload;
    if segs == [] {
    } else {
      PayloadsAppend(buf, segs[1..], g);
      assert (segs + [g])[1..] == segs[1..] + [g];
    }
  }

  lemma {:induction false} PayloadsSame(buf: seq<byte>, buf': seq<byte>, segs: seq<Seg>)
    requires forall i :: 0 <= i < |segs| ==> Payload(buf', segs[i]) == Payload(buf, segs[i])
    ensures Payloads(buf', segs) == Payloads(buf, segs)
  {
    hide Payload;
    if segs != [] {
      assert forall i :: 0 <= i < |segs[1..]| ==> segs[1..][i] == segs[i + 1];
      PayloadsSame(buf, buf', segs[1..]);
    }
  }

  /** Writing inside the newest segment changes no other payload. */
  lemma NewestKeepsPayload(buf: seq<byte>, segs: seq<Seg>, g: Seg, data: seq<byte>, i: nat)
    requires Layout(segs + [g], |buf|) && Filled(segs) && |data| <= g.end - g.start && i < |segs|
    ensures Payload(Put(buf, g.start, data), segs[i]) == Payload(buf, segs[i])
  {
    var t := segs + [g];
    LayoutDisjoint(t, |buf|);
    assert PlaceOk(t, |segs|, |buf|);
    assert Disjoint(t[i], t[|segs|]);
    TakeElsewhere(buf, g.start, data, segs[i].start + 3, segs[i].end - segs[i].start - 3);
  }

  lemma NewestKeepsPayloads(buf: seq<byte>, segs: seq<Seg>, g: Seg, data: seq<byte>)
    requires Layout(segs + [g], |buf|) && Filled(segs) && |data| <= g.end - g.start
    ensures Payloads(Put(buf, g.start, data), segs) == Payloads(buf, segs)
  {
    hide Payload, Layout;
    forall i | 0 <= i < |segs|
      ensures Payload(Put(buf, g.start, data), segs[i]) == Payload(buf, segs[i])
    {
      NewestKeepsPayload(buf, segs, g, data, i);
    }
    PayloadsSame(buf, Put(buf, g.start, data), segs);
  }

  // ---- receivePendingData ----------------------------------------------------------------------

  function CrParts(cs: seq<Cmd>, c: Cmd): seq<Cmd> {
    if cs == [] then [] else [c, c]
  }

  function AfterReceivePlan(s: SockNo, l: Local): Local {
    var (sk, cs) := ReceivePlan(l.sk, s);
    l.(sk := sk, rx := l.rx + cs, cr := l.cr + CrParts(cs, CrWrite(s, CR_RECV)))
  }

  /** The plan in plain words: the place found, the header put there, the batch to push. */
  lemma PlanInWords(s: SockNo, sk: Sock)
    requires ReceivePlan(sk, s).1 != [] && sk.reg.rxRsr <= 16384
    ensures var n := sk.reg.rxRsr;
            var at := BufferIndex(sk.rxq, |sk.rxBuf|, n + 3);
            && at != -1 && 0 < n && !sk.receiving
            && ReceivePlan(sk, s) == (sk.(rxBuf := Put(sk.rxBuf, at, Header(sk.reg.rxRd, RxBlock(s), false)),
                                          receiving := true, clash := sk.clash || Full(sk.rxq)),
                                      RecvBatch(s, at, n, sk.reg.rxRd))
  {
    assert ToU16(sk.reg.rxRsr + 3) == sk.reg.rxRsr + 3;
  }

  lemma ReservedPlace(sk: Sock, g: Seg, h: seq<byte>)
    requires |sk.rxBuf| <= 32767 && Layout(sk.rxq, |sk.rxBuf|) && Filled(sk.rxq) && !Full(sk.rxq)
    requires g.start + 3 < g.end && g.end - g.start < 65536 && |h| == 3
    requires BufferIndex(sk.rxq, |sk.rxBuf|, g.end - g.start) == g.start
    ensures Layout(sk.rxq + [g], |sk.rxBuf|)
    ensures Take(Put(sk.rxBuf, g.start, h), g.start, 3) == h
    ensures Payloads(Put(sk.rxBuf, g.start, h), sk.rxq) == Payloads(sk.rxBuf, sk.rxq)
  {
    AllocateKeepsLayout(sk.rxq, |sk.rxBuf|, g);
    var t := sk.rxq + [g];
    assert PlaceOk(t, |sk.rxq|, |sk.rxBuf|);
    NewestKeepsPayloads(sk.rxBuf, sk.rxq, g, h);
    TakePut(sk.rxBuf, g.start, h);
  }

  function AfterReserve(s: SockNo, l: Local, at: nat, n: nat): Local {
    l.(sk := l.sk.(rxBuf := Put(l.sk.rxBuf, at, Header(l.sk.reg.rxRd, RxBlock(s), false)), receiving := true),
       rx := [ReadBuf(s, at, n + 3), MoveRd(s, l.ch, n)] + RecvTail(s),
       cr := l.cr + [CrWrite(s, CR_RECV), CrWrite(s, CR_RECV)])
  }

  lemma PlanReserves(s: SockNo, l: Local, at: nat, n: nat)
    requires StaticInv(l) && RxQuiet(l) && n == l.sk.reg.rxRsr > 0
    requires at == BufferIndex(l.sk.rxq, |l.sk.rxBuf|, n + 3) && !Full(l.sk.rxq)
    ensures RxReserved(s, AfterReserve(s, l, at, n), at, n)
  {
    hide Layout, BufferIndex, Header, Put, Take, Payloads, SetU16, Full;
    ReservedPlace(l.sk, Seg(at, at + n + 3, [], 0), Header(l.sk.reg.rxRd, RxBlock(s), false));
  }

  lemma PlanFromQuiet(s: SockNo, l: Local, p: RxPoint)
    requires RxAt(s, l, p) && ReceivePlan(l.sk, s).1 != []
    ensures p == Quiet
  {
    hide Layout, Take, Taken, RecvBatch, BufferIndex, Put, Header;
  }

  lemma ReceivePlanReserves(s: SockNo, l: Local)
    requires StaticInv(l) && RxInv(s, l) && ReceivePlan(l.sk, s).1 != [] && !ReceivePlan(l.sk, s).0.clash
    ensures RxInv(s, AfterReceivePlan(s, l))
  {
    hide Whole, Parse, RxMemory, RxAt, UdpAt, Layout, BufferIndex, Put, Header, SetU16, ReceivePlan, RecvBatch,
         AfterReceivePlan, Full;
    var p :| RxAt(s, l, p) && UdpAt(l, p);
    PlanFromQuiet(s, l, p);
    QuietSize(s, l);
    PlanInWords(s, l.sk);
    var n := l.sk.reg.rxRsr;
    IndexInside(l.sk.rxq, |l.sk.rxBuf|, n + 3);
    var at := BufferIndex(l.sk.rxq, |l.sk.rxBuf|, n + 3);
    PlanReserved(s, l, at, n);
    PlanIsReserve(s, l, at, n);
  }

  lemma PlanIsReserve(s: SockNo, l: Local, at: nat, n: nat)
    requires l.rx == [] && l.sk.reg.rxRd == ToU16(l.ch.rxRd) && !l.sk.clash && n < 65533
    requires ReceivePlan(l.sk, s) == (AfterReserve(s, l, at, n).sk, RecvBatch(s, at, n, l.sk.reg.rxRd))
    ensures AfterReceivePlan(s, l) == AfterReserve(s, l, at, n)
  {
    hide Put, Header, SetU16, ReceivePlan;
    assert RecvBatch(s, at, n, l.sk.reg.rxRd) == AfterReserve(s, l, at, n).rx;
    assert l.rx + AfterReserve(s, l, at, n).rx == AfterReserve(s, l, at, n).rx;
  }

  lemma PlanReserved(s: SockNo, l: Local, at: nat, n: nat)
    requires StaticInv(l) && RxMemory(l.ch) && RxAt(s, l, Quiet) && UdpAt(l, Quiet) && n == l.sk.reg.rxRsr > 0
    requires at == BufferIndex(l.sk.rxq, |l.sk.rxBuf|, n + 3) && !Full(l.sk.rxq)
    ensures RxInv(s, AfterReserve(s, l, at, n))
  {
    hide RxMemory, UdpAt, Layout, BufferIndex, Put, Header, RxQuiet, RxReserved;
    PlanReserves(s, l, at, n);
    PlanKeepsRecords(s, l, at, n);
    assert RxAt(s, AfterReserve(s, l, at, n), Reserved(at, n));
  }

  lemma QuietSize(s: SockNo, l: Local)
    requires ValidChip(l.ch) && RxAt(s, l, Quiet)
    ensures l.sk.reg.rxRsr <= 16384 && l.rx == [] && l.sk.reg.rxRd == ToU16(l.ch.rxRd) && Layout(l.sk.rxq, |l.sk.rxBuf|)
  {
    hide Layout, Taken;
  }

  lemma PlanKeepsRecords(s: SockNo, l: Local, at: nat, n: nat)
    requires RxQuiet(l) && UdpAt(l, Quiet) && n == l.sk.reg.rxRsr > 0 && RxReserved(s, AfterReserve(s, l, at, n), at, n)
    requires Filled(l.sk.rxq)
    ensures UdpAt(AfterReserve(s, l, at, n), Reserved(at, n))
  {
    hide Parse, Whole;
    var q := l.sk.rxq;
    var t := q + [Seg(at, at + n + 3, [], 0)];
    var l' := AfterReserve(s, l, at, n);
    forall i | 0 <= i < |q|
      ensures Payload(l'.sk.rxBuf, q[i]) == Payload(l.sk.rxBuf, q[i])
    {
      NewestKeepsPayload(l.sk.rxBuf, q, t[|q|], Header(l.sk.reg.rxRd, RxBlock(s), false), i);
    }
  }

  lemma ReceivePlanKeeps(s: SockNo, l: Local)
    requires LInv(s, l) && !AfterReceivePlan(s, l).sk.clash
    ensures LInv(s, AfterReceivePlan(s, l))
  {
    hide RxAt, TxStage, RxMemory, Layout, BufferIndex, Put, Header;
    var l' := AfterReceivePlan(s, l);
    if ReceivePlan(l.sk, s).1 == [] {
      assert l' == l;
    } else {
      ReceivePlanReserves(s, l);
      TxFrame(s, l, l');
    }
  }

  // ---- Completions of the receive batch ----------------------------------------------------------

  function AfterReadBuf(l: Local): Local
    requires l.rx != [] && l.rx[0].ReadBuf? && |l.ch.rxMem| > 0
  {
    var c := l.rx[0];
    var r := ReadReply(l.ch, c, l.sk.rxBuf);
    l.(rx := l.rx[1..],
       sk := l.sk.(rxBuf := Put(l.sk.rxBuf, c.start, if r.Bytes? then r.bytes else []),
                   rxq := l.sk.rxq + [Fetched(c.start, c.len)]))
  }

  function Unread(ch: ChipSock, n: nat): seq<byte>
    requires ch.rxRd + n <= |ch.arrived|
  {
    ch.arrived[ch.rxRd..ch.rxRd + n]
  }

  /** The transfer brings the unread bytes from the read pointer on. */
  lemma BufferBrings(s: SockNo, ch: ChipSock, buf: seq<byte>, at: nat, n: nat)
    requires ValidChip(ch) && RxMemory(ch) && ch.rxRel == ch.rxRd && ch.rxRd + n <= ch.rxWr && at + 3 <= |buf|
    requires Take(buf, at, 3) == Header(ToU16(ch.rxRd), RxBlock(s), false)
    ensures ReadReply(ch, ReadBuf(s, at, n + 3), buf) == Bytes([0, 0, 0] + Unread(ch, n))
  {
    HeaderRoundTrip(ToU16(ch.rxRd), RxBlock(s), false);
    assert buf[at..at + 3] == Take(buf, at, 3);
    RingAddress16(ch.rxMem, ch.rxRd, n);
    RingReadPart(ch.rxMem, ch.rxRel, ch.rxWr - ch.rxRel, 0, n);
    assert ch.arrived[ch.rxRel..ch.rxWr][0..n] == ch.arrived[ch.rxRd..ch.rxRd + n];
  }

  lemma NewPayload(sk: Sock, g: Seg, got: seq<byte>)
    requires Layout(sk.rxq + [g], |sk.rxBuf|) && g.start + 3 + |got| == g.end
    ensures Payload(Put(sk.rxBuf, g.start, [0, 0, 0] + got), g) == got
  {
    var t := sk.rxq + [g];
    assert PlaceOk(t, |sk.rxq|, |sk.rxBuf|);
    var data := [0, 0, 0] + got;
    TakePut(sk.rxBuf, g.start, data);
    assert Payload(Put(sk.rxBuf, g.start, data), g) == Take(Put(sk.rxBuf, g.start, data), g.start, |data|)[3..] == got;
  }

  /** The reply lands in the reserved place and becomes the newest payload. */
  lemma ReplyLands(sk: Sock, g: Seg, got: seq<byte>)
    requires Layout(sk.rxq + [g], |sk.rxBuf|) && Filled(sk.rxq) && g.start + 3 + |got| == g.end
    ensures var buf := Put(sk.rxBuf, g.start, [0, 0, 0] + got);
            Payloads(buf, sk.rxq + [g]) == Payloads(sk.rxBuf, sk.rxq) + got
  {
    hide Layout, Payload;
    var data := [0, 0, 0] + got;
    var buf := Put(sk.rxBuf, g.start, data);
    NewestKeepsPayloads(sk.rxBuf, sk.rxq, g, data);
    NewPayload(sk, g, got);
    PayloadsAppend(buf, sk.rxq, g);
  }

  lemma CommitPlaces(s: SockNo, l: Local, at: nat, n: nat)
    requires ValidChip(l.ch) && RxMemory(l.ch) && Filled(l.sk.rxq) && |l.sk.rxBuf| <= 32767 && RxReserved(s, l, at, n)
    ensures AfterReadBuf(l) == l.(rx := [MoveRd(s, l.ch, n)] + RecvTail(s),
                                  sk := l.sk.(rxBuf := Put(l.sk.rxBuf, at, [0, 0, 0] + Unread(l.ch, n)),
                                              rxq := l.sk.rxq + [Seg(at, at + n + 3, [], 0)]))
    ensures var sk' := AfterReadBuf(l).sk;
            Payloads(sk'.rxBuf, sk'.rxq) == Payloads(l.sk.rxBuf, l.sk.rxq) + Unread(l.ch, n)
  {
    var g := Seg(at, at + n + 3, [], 0);
    var t := l.sk.rxq + [g];
    assert PlaceOk(t, |l.sk.rxq|, |l.sk.rxBuf|);
    FetchedIs(at, n + 3);
    BufferBrings(s, l.ch, l.sk.rxBuf, at, n);
    ReplyLands(l.sk, g, Unread(l.ch, n));
    assert l.rx[0] == ReadBuf(s, at, n + 3);
    assert l.rx[1..] == [MoveRd(s, l.ch, n)] + RecvTail(s);
  }

  lemma Grow(taken: seq<byte>, queued: seq<byte>, all: seq<byte>, pos: nat, n: nat)
    requires pos + n <= |all| && taken + queued == all[..pos]
    ensures taken + (queued + all[pos..pos + n]) == all[..pos + n]
  {
    assert taken + (queued + all[pos..pos + n]) == (taken + queued) + all[pos..pos + n];
  }

  lemma ReadBufCommits(s: SockNo, l: Local, at: nat, n: nat)
    requires ValidChip(l.ch) && RxMemory(l.ch) && Filled(l.sk.rxq) && |l.sk.rxBuf| <= 32767 && RxReserved(s, l, at, n)
    ensures Filled(AfterReadBuf(l).sk.rxq) && RxCommitted(s, AfterReadBuf(l), n)
  {
    hide Payload, Payloads, Put, Layout, AfterReadBuf, RxMemory, SetU16, Take;
    CommitPlaces(s, l, at, n);
    Grow(l.h.taken, Payloads(l.sk.rxBuf, l.sk.rxq), l.ch.arrived, l.ch.rxRd, n);
  }

  /** The new segment holds whole records when both ends are record boundaries. */
  lemma CommitKeepsRecords(s: SockNo, l: Local, at: nat, n: nat)
    requires ValidChip(l.ch) && RxMemory(l.ch) && Filled(l.sk.rxq) && |l.sk.rxBuf| <= 32767
    requires RxReserved(s, l, at, n) && UdpAt(l, Reserved(at, n))
    ensures UdpAt(AfterReadBuf(l), Committed(n))
  {
    hide Parse, Whole, RingRead, Payloads, Payload, Put, Layout, AfterReadBuf, Taken, RxMemory;
    CommitPlaces(s, l, at, n);
    var l' := AfterReadBuf(l);
    var q := l.sk.rxq;
    var g := Seg(at, at + n + 3, [], 0);
    var got := Unread(l.ch, n);
    forall i | 0 <= i < |q|
      ensures Payload(l'.sk.rxBuf, q[i]) == Payload(l.sk.rxBuf, q[i])
    {
      NewestKeepsPayload(l.sk.rxBuf, q, g, [0, 0, 0] + got, i);
    }
    NewPayload(l.sk, g, got);
    if l.ch.mode == Udp {
      var rd := l.ch.rxRd;
      assert l.ch.arrived[..rd] + got == l.ch.arrived[..rd + n];
      WholeRest(l.ch.arrived[..rd], got);
      assert forall i :: 0 <= i < |l'.sk.rxq| ==> l'.sk.rxq[i] == if i < |q| then q[i] else g;
    }
  }

  lemma ReadBufKeeps(s: SockNo, l: Local)
    requires LInv(s, l) && l.rx != [] && l.rx[0].ReadBuf?
    ensures LInv(s, AfterReadBuf(l))
  {
    hide Layout, Payloads, Put, Take, RingRead, TxStage, TxCarried, Taken, Header, SetU16, Unread, UdpAt;
    var p :| RxAt(s, l, p) && UdpAt(l, p);
    assert p.Reserved?;
    ReadBufCommits(s, l, p.at, p.n);
    CommitPlaces(s, l, p.at, p.n);
    CommitKeepsRecords(s, l, p.at, p.n);
    assert RxAt(s, AfterReadBuf(l), Committed(p.n));
    TxFrame(s, l, AfterReadBuf(l));
  }

  function AfterRxRd(l: Local): Local
    requires l.rx != [] && |l.ch.txMem| > 0
  {
    l.(rx := l.rx[1..], ch := AfterWrite(l.ch, l.rx[0], l.sk.txBuf))
  }

  lemma RxRdMoves(s: SockNo, l: Local, n: nat)
    requires ValidChip(l.ch) && RxCommitted(s, l, n)
    ensures AfterRxRd(l) == l.(rx := RecvTail(s), ch := l.ch.(rxRd := l.ch.rxRd + n))
  {
    assert l.rx[0] == MoveRd(s, l.ch, n);
    U16RoundTrip(ToU16(l.ch.rxRd) + n);
    AdvanceShown(l.ch.rxRd, n);
  }

  lemma RxRdKeeps(s: SockNo, l: Local)
    requires LInv(s, l) && l.rx != [] && l.rx[0].WriteReg? && l.rx[0].off == Sn_RX_RD
    ensures LInv(s, AfterRxRd(l))
  {
    hide RxAt, UdpAt, RingRead, TxStage, TxCarried, AfterRxRd;
    var p :| RxAt(s, l, p) && UdpAt(l, p);
    RxRdReleases(s, l, p);
    TxFrame(s, l, AfterRxRd(l));
  }

  lemma RxRdReleases(s: SockNo, l: Local, p: RxPoint)
    requires ValidChip(l.ch) && RxAt(s, l, p) && UdpAt(l, p)
    requires l.rx != [] && l.rx[0].WriteReg? && l.rx[0].off == Sn_RX_RD
    ensures p.Committed? && AfterRxRd(l) == l.(rx := RecvTail(s), ch := l.ch.(rxRd := l.ch.rxRd + p.n))
    ensures l.ch.rxRd + p.n <= l.ch.rxWr && l.ch.rxRel == l.ch.rxRd && l.sk.receiving
    ensures RxAt(s, AfterRxRd(l), Releasing) && UdpAt(AfterRxRd(l), Releasing)
  {
    hide RxAt, AfterRxRd, Whole, Parse, AllWhole;
    RxRdHead(s, l, p);
    RxRdMoves(s, l, p.n);
    RxRdReleasing(s, l, AfterRxRd(l), p.n);
  }

  lemma RxRdHead(s: SockNo, l: Local, p: RxPoint)
    requires RxAt(s, l, p) && l.rx != [] && l.rx[0].WriteReg? && l.rx[0].off == Sn_RX_RD
    ensures p.Committed? && RxCommitted(s, l, p.n)
  {
    hide Layout, Take, Header, SetU16, Taken;
  }

  lemma RxRdReleasing(s: SockNo, l: Local, l': Local, n: nat)
    requires RxCommitted(s, l, n) && l' == l.(rx := RecvTail(s), ch := l.ch.(rxRd := l.ch.rxRd + n))
    ensures RxAt(s, l', Releasing)
  {
    hide Layout, Payloads, SetU16;
    assert RecvTail(s)[0..] == RecvTail(s);
  }

  /** CHECK_RCV has sampled the received size; the batch is over. */
  function AfterCheckRcv(l: Local): Local
    requires l.rx != []
  {
    l.(rx := l.rx[1..],
       sk := l.sk.(receiving := false, reg := l.sk.reg.(rxRsr := RxRsr(l.ch), rxRd := ToU16(l.ch.rxRd))))
  }

  /** The sample is taken after the read pointer has been written and accepted. */
  lemma CheckRcvIsLast(s: SockNo, l: Local)
    requires ValidChip(l.ch) && RxInv(s, l) && l.rx != [] && l.rx[0].CheckRcv?
    ensures l.sk.receiving && |l.rx| == 1 && l.ch.rxRel == l.ch.rxRd && RxAt(s, l, Releasing) && UdpAt(l, Releasing)
  {
    hide UdpAt, RingRead;
    var p :| RxAt(s, l, p) && UdpAt(l, p);
    assert p == Releasing;
  }

  lemma CheckRcvKeeps(s: SockNo, l: Local)
    requires LInv(s, l) && l.rx != [] && l.rx[0].CheckRcv?
    ensures LInv(s, AfterCheckRcv(l))
  {
    var l' := AfterCheckRcv(l);
    hide RxMemory, RxAt, UdpAt, TxStage, TxCarried;
    CheckRcvIsLast(s, l);
    CheckRcvQuiet(s, l);
    assert RxAt(s, l', Quiet) && UdpAt(l', Quiet);
    TxFrame(s, l, l');
  }

  lemma CheckRcvQuiet(s: SockNo, l: Local)
    requires ValidChip(l.ch) && l.rx != [] && |l.rx| == 1 && l.ch.rxRel == l.ch.rxRd
    requires RxAt(s, l, Releasing) && UdpAt(l, Releasing)
    ensures RxAt(s, AfterCheckRcv(l), Quiet) && UdpAt(AfterCheckRcv(l), Quiet)
  {
    hide Layout, Payloads, Whole, Parse, AllWhole;
    assert l.ch.arrived[..|l.ch.arrived|] == l.ch.arrived;
  }

  // ---- Consumption -----------------------------------------------------------------------------

  function AfterTaken(l: Local, sk: Sock, data: seq<byte>): Local {
    l.(sk := sk, h := l.h.(taken := l.h.taken + data))
  }

  /** The receive queue is laid out in order whatever the stage. */
  lemma RxLayout(s: SockNo, l: Local, p: RxPoint)
    requires RxAt(s, l, p)
    ensures Layout(l.sk.rxq, |l.sk.rxBuf|)
  {
    if p.Reserved? { OlderKeepLayout(l.sk.rxq, |l.sk.rxBuf|, Seg(p.at, p.at + p.n + 3, [], 0)); }
  }

  /** Consuming from the front of the queue: the bytes handed out make up for those gone. */
  lemma FrontTakenKeeps(s: SockNo, l: Local, q: seq<Seg>, data: seq<byte>, p: RxPoint)
    requires RxAt(s, l, p) && data + Payloads(l.sk.rxBuf, q) == Payloads(l.sk.rxBuf, l.sk.rxq)
    requires Layout(LiveRx(l.(sk := l.sk.(rxq := q)), p), |l.sk.rxBuf|)
    ensures RxAt(s, AfterTaken(l, l.sk.(rxq := q), data), p)
  {
    hide Layout, Payloads, Take;
    var l' := AfterTaken(l, l.sk.(rxq := q), data);
    StillTaken(l, l', data, PosOf(l, p));
    RxReframe(s, l, l', p);
  }

  lemma StillTaken(l: Local, l': Local, data: seq<byte>, pos: nat)
    requires Taken(l, pos) && l'.ch == l.ch && l'.h.taken == l.h.taken + data
    requires data + Payloads(l'.sk.rxBuf, l'.sk.rxq) == Payloads(l.sk.rxBuf, l.sk.rxq)
    ensures Taken(l', pos)
  {
    hide Payloads;
    assert l'.h.taken + Payloads(l'.sk.rxBuf, l'.sk.rxq) == l.h.taken + (data + Payloads(l'.sk.rxBuf, l'.sk.rxq));
  }

  /** Dropping the oldest segment hands out its payload. */
  lemma PopKeepsRx(s: SockNo, l: Local, p: RxPoint)
    requires RxAt(s, l, p) && l.sk.rxq != []
    ensures RxAt(s, AfterTaken(l, l.sk.(rxq := l.sk.rxq[1..]), Payload(l.sk.rxBuf, l.sk.rxq[0])), p)
  {
    hide Layout, Payload, Take;
    var q := l.sk.rxq;
    if p.Reserved? {
      var t := q + [Seg(p.at, p.at + p.n + 3, [], 0)];
      PopKeepsLayout(t, |l.sk.rxBuf|);
      assert t[1..] == q[1..] + [Seg(p.at, p.at + p.n + 3, [], 0)];
    } else {
      RxLayout(s, l, p);
      PopKeepsLayout(q, |l.sk.rxBuf|);
    }
    FrontTakenKeeps(s, l, q[1..], Payload(l.sk.rxBuf, q[0]), p);
  }

  lemma TakenTwice(l: Local, sk1: Sock, a: seq<byte>, sk2: Sock, b: seq<byte>)
    ensures AfterTaken(AfterTaken(l, sk1, a), sk2, b) == AfterTaken(l, sk2, a + b)
  {
    assert l.h.taken + a + b == l.h.taken + (a + b);
  }

  lemma CopiedIsPayload(sk: Sock)
    requires sk.rxq != [] && Layout(sk.rxq, |sk.rxBuf|) && Filled(sk.rxq) && |sk.rxBuf| <= 32767
    ensures Payload(sk.rxBuf, sk.rxq[0]) == Take(sk.rxBuf, sk.rxq[0].start + 3, DataLen(sk.rxq[0]))
  {
    hide Take;
    assert PlaceOk(sk.rxq, 0, |sk.rxBuf|);
  }

  lemma {:induction false} RecvCopyConserves(s: SockNo, l: Local, room: nat, p: RxPoint)
    requires RxAt(s, l, p) && Filled(l.sk.rxq) && |l.sk.rxBuf| <= 32767
    ensures var r := RecvCopy(l.sk, room);
            RxAt(s, AfterTaken(l, r.0, r.1), p) && Filled(r.0.rxq) && r.0 == l.sk.(rxq := r.0.rxq)
    decreases |l.sk.rxq|
  {
    hide RxAt, Payloads, Payload, Take, Layout, DataLen, Taken;
    var q := l.sk.rxq;
    if room == 0 || q == [] || DataLen(q[0]) > room {
      assert AfterTaken(l, l.sk, []) == l;
    } else {
      RxLayout(s, l, p);
      var data := Payload(l.sk.rxBuf, q[0]);
      CopiedIsPayload(l.sk);
      PopKeepsRx(s, l, p);
      var sk1 := l.sk.(rxq := q[1..]);
      RecvCopyConserves(s, AfterTaken(l, sk1, data), room - DataLen(q[0]), p);
      var r1 := RecvCopy(sk1, room - DataLen(q[0]));
      TakenTwice(l, sk1, data, r1.0, r1.1);
    }
  }

  lemma RecvCopyKeeps(s: SockNo, l: Local, room: nat)
    requires LInv(s, l) && l.ch.mode == Tcp
    ensures var r := RecvCopy(l.sk, room); LInv(s, AfterTaken(l, r.0, r.1))
  {
    hide RxAt, TxStage, Layout, RecvCopy;
    var p :| RxAt(s, l, p) && UdpAt(l, p);
    RecvCopyConserves(s, l, room, p);
    var r := RecvCopy(l.sk, room);
    TxFrame(s, l, AfterTaken(l, r.0, r.1));
  }
}
