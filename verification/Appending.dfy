/** Appending a send or receive batch keeps the invariant. */
module Appending {
  import opened Bytes
  import opened Spi
  import opened RingAlloc
  import opened DriverSpec
  import opened Chip
  import opened World
  import opened Lanes
  import opened LocalInv
  import opened TxSteps
  import opened RxSteps
  import opened Scheduling
  import opened Invariant

  ghost predicate Ordinary(cs: seq<Cmd>) {
    forall i :: 0 <= i < |cs| ==> ValidCmd(cs[i]) && !cs[i].ClearIr? && !cs[i].ReadSoc?
  }

  /** The pending list grows at its back; nothing else about scheduling changes. */
  ghost predicate Appended(d: Drv, d': Drv, cs: seq<Cmd>) {
    && SchedInv(d') && Pending(d') == Pending(d) + cs
    && forall s :: CrFlying(d', s) <==> CrFlying(d, s)
  }

  function Grown(w': World, s: SockNo, l: Local, cs: seq<Cmd>): Local
    requires Shape(w')
  {
    l.(rx := l.rx + Sel(cs, RxLane(s)), tx := l.tx + Sel(cs, TxLane(s)), cr := l.cr + Sel(cs, CrLane(s)),
       sk := w'.d.socks[s], ch := w'.chips[s], h := w'.hist[s])
  }

  lemma GrownLocal(w: World, w': World, s: SockNo, cs: seq<Cmd>)
    requires Shape(w) && Shape(w') && Appended(w.d, w'.d, cs) && Ordinary(cs)
    ensures LocalOf(w', s) == Grown(w', s, LocalOf(w, s), cs)
  {
    var p := Pending(w.d);
    SelJoin(p, cs, RxLane(s));
    SelJoin(p, cs, TxLane(s));
    SelJoin(p, cs, CrLane(s));
    assert p != [] ==> (p + cs)[0] == p[0];
    assert p == [] && cs != [] ==> (p + cs)[0] == cs[0];
  }

  /** A batch of another socket is on none of this socket's lanes. */
  lemma ForeignGrown(w: World, w': World, s: SockNo, sn: SockNo, cs: seq<Cmd>)
    requires Shape(w) && Shape(w') && Appended(w.d, w'.d, cs) && Ordinary(cs) && s != sn
    requires forall i :: 0 <= i < |cs| ==> !cs[i].ReadSir? && !cs[i].Idle? && cs[i].sn == sn
    requires w'.d.socks[s] == w.d.socks[s] && w'.chips[s] == w.chips[s] && w'.hist[s] == w.hist[s]
    ensures LocalOf(w', s) == LocalOf(w, s)
  {
    GrownLocal(w, w', s, cs);
    SelNone(cs, RxLane(s));
    SelNone(cs, TxLane(s));
    SelNone(cs, CrLane(s));
  }

  lemma ServiceGrown(p: seq<Cmd>, cs: seq<Cmd>, chips: seq<ChipSock>)
    requires |chips| == SOCKETS && ServiceInv(p, chips) && Ordinary(cs)
    ensures ServiceInv(p + cs, chips)
  {
    var q := p + cs;
    assert forall i :: |p| <= i < |q| ==> q[i] == cs[i - |p|];
  }

  /** Only socket sn changed, and its part of the invariant holds again. */
  lemma OneSocket(w: World, w': World, sn: SockNo, cs: seq<Cmd>)
    requires Inv(w) && Shape(w') && Appended(w.d, w'.d, cs) && Ordinary(cs)
    requires forall i :: 0 <= i < |cs| ==> !cs[i].ReadSir? && !cs[i].Idle? && cs[i].sn == sn
    requires w'.chips == w.chips
    requires w'.d.socks == w.d.socks[sn := w'.d.socks[sn]] && w'.hist == w.hist[sn := w'.hist[sn]]
    requires LInv(sn, LocalOf(w', sn))
    ensures Inv(w')
  {
    hide LInv, LocalOf, SchedInv;
    ServiceGrown(Pending(w.d), cs, w.chips);
    forall s: SockNo
      ensures LInv(s, LocalOf(w', s))
    {
      if s != sn { ForeignGrown(w, w', s, sn, cs); }
    }
  }

  // ---- Send batches ------------------------------------------------------------------------

  lemma SendBatchLanes(sn: SockNo, mode: Mode, g: Seg, txWr: u16)
    requires g.start <= g.end
    ensures var cs := SendBatch(sn, mode, g, txWr);
            && Ordinary(cs) && !IsCrWrite(cs[0])
            && (forall i :: 0 <= i < |cs| ==> !cs[i].ReadSir? && !cs[i].Idle? && cs[i].sn == sn)
            && Sel(cs, TxLane(sn)) == cs && Sel(cs, RxLane(sn)) == []
            && Sel(cs, CrLane(sn)) == [CrWrite(sn, CR_SEND)]
  {
    hide Sel, SetU16, ToU16;
    var cs := SendBatch(sn, mode, g, txWr);
    SelAll(cs, TxLane(sn));
    SelNone(cs, RxLane(sn));
    var k := |cs| - 1;
    assert cs == cs[..k] + [CrWrite(sn, CR_SEND)];
    SelJoin(cs[..k], [CrWrite(sn, CR_SEND)], CrLane(sn));
    SelNone(cs[..k], CrLane(sn));
    SelAll([CrWrite(sn, CR_SEND)], CrLane(sn));
  }

  lemma SendPlanLanes(sk: Sock, sn: SockNo)
    ensures var cs := SendPlan(sk, sn).1;
            && Ordinary(cs) && (cs != [] ==> !IsCrWrite(cs[0]))
            && (forall i :: 0 <= i < |cs| ==> !cs[i].ReadSir? && !cs[i].Idle? && cs[i].sn == sn)
            && Sel(cs, TxLane(sn)) == cs && Sel(cs, RxLane(sn)) == []
            && Sel(cs, CrLane(sn)) == CrPart(cs, CrWrite(sn, CR_SEND))
  {
    hide SendBatch, Put, Header;
    var cs := SendPlan(sk, sn).1;
    if cs != [] { SendBatchLanes(sn, sk.reg.mode, sk.txq[0], sk.reg.txWr); }
  }

  lemma SendAppended(w: World, w': World, sn: SockNo)
    requires Inv(w) && Shape(w') && Appended(w.d, w'.d, SendPlan(w.d.socks[sn], sn).1)
    requires w' == w.(d := w'.d) && w'.d.socks == w.d.socks[sn := SendPlan(w.d.socks[sn], sn).0]
    ensures Inv(w') && LocalOf(w', sn) == AfterSendPlan(sn, LocalOf(w, sn))
  {
    hide LInv, SchedInv, SendPlan;
    var cs := SendPlan(w.d.socks[sn], sn).1;
    SendPlanLanes(w.d.socks[sn], sn);
    GrownLocal(w, w', sn, cs);
    var l := LocalOf(w, sn);
    assert LInv(sn, l);
    SendPlanKeeps(sn, l);
    assert l.rx + [] == l.rx;
    assert LocalOf(w', sn) == AfterSendPlan(sn, l);
    OneSocket(w, w', sn, cs);
  }

  // ---- Receive batches ---------------------------------------------------------------------

  lemma RecvBatchLanes(sn: SockNo, at: int, rsr: u16, rxRd: u16)
    ensures var cs := RecvBatch(sn, at, rsr, rxRd);
            && Ordinary(cs) && !IsCrWrite(cs[0])
            && (forall i :: 0 <= i < |cs| ==> !cs[i].ReadSir? && !cs[i].Idle? && cs[i].sn == sn)
            && Sel(cs, RxLane(sn)) == cs && Sel(cs, TxLane(sn)) == []
            && Sel(cs, CrLane(sn)) == [CrWrite(sn, CR_RECV), CrWrite(sn, CR_RECV)]
  {
    hide Sel, SetU16, ToU16;
    var cs := RecvBatch(sn, at, rsr, rxRd);
    SelAll(cs, RxLane(sn));
    SelNone(cs, TxLane(sn));
    var c := CrWrite(sn, CR_RECV);
    assert cs == cs[..2] + [c, c] + cs[4..];
    SelJoin(cs[..2] + [c, c], cs[4..], CrLane(sn));
    SelJoin(cs[..2], [c, c], CrLane(sn));
    SelNone(cs[..2], CrLane(sn));
    SelNone(cs[4..], CrLane(sn));
    SelAll([c, c], CrLane(sn));
  }

  lemma ReceivePlanLanes(sk: Sock, sn: SockNo)
    ensures var cs := ReceivePlan(sk, sn).1;
            && Ordinary(cs) && (cs != [] ==> !IsCrWrite(cs[0]))
            && (forall i :: 0 <= i < |cs| ==> !cs[i].ReadSir? && !cs[i].Idle? && cs[i].sn == sn)
            && Sel(cs, RxLane(sn)) == cs && Sel(cs, TxLane(sn)) == []
            && Sel(cs, CrLane(sn)) == CrParts(cs, CrWrite(sn, CR_RECV))
  {
    hide RecvBatch, Put, Header, BufferIndex;
    var cs := ReceivePlan(sk, sn).1;
    if cs != [] {
      RecvBatchLanes(sn, BufferIndex(sk.rxq, |sk.rxBuf|, ToU16(sk.reg.rxRsr + 3)), sk.reg.rxRsr, sk.reg.rxRd);
    }
  }

  lemma ReceiveAppended(w: World, w': World, sn: SockNo)
    requires Inv(w) && Shape(w') && Appended(w.d, w'.d, ReceivePlan(w.d.socks[sn], sn).1)
    requires w' == w.(d := w'.d) && w'.d.socks == w.d.socks[sn := ReceivePlan(w.d.socks[sn], sn).0]
    requires !w'.d.socks[sn].clash
    ensures Inv(w') && LocalOf(w', sn) == AfterReceivePlan(sn, LocalOf(w, sn))
  {
    hide LInv, SchedInv, ReceivePlan;
    var cs := ReceivePlan(w.d.socks[sn], sn).1;
    ReceivePlanLanes(w.d.socks[sn], sn);
    GrownLocal(w, w', sn, cs);
    var l := LocalOf(w, sn);
    assert LInv(sn, l);
    assert l.tx + [] == l.tx;
    assert LocalOf(w', sn) == AfterReceivePlan(sn, l);
    ReceivePlanKeeps(sn, l);
    OneSocket(w, w', sn, cs);
  }

  // ---- sendPendingData and receivePendingData ----------------------------------------------

  lemma SendPendingKeeps(w: World, sn: SockNo, ok: bool)
    requires Inv(w) && SendPending(w.d, sn, ok).fails == w.d.fails
    ensures Inv(w.(d := SendPending(w.d, sn, ok)))
  {
    hide LInv, SendPlan;
    var (sk, cs) := SendPlan(w.d.socks[sn], sn);
    SendPlanLanes(w.d.socks[sn], sn);
    PushAllPending(w.d.(socks := w.d.socks[sn := sk]), cs, ok);
    SendAppended(w, w.(d := SendPending(w.d, sn, ok)), sn);
  }

  lemma ReceivePendingKeeps(w: World, sn: SockNo, ok: bool)
    requires Inv(w) && ReceivePending(w.d, sn, ok).fails == w.d.fails
    requires !ReceivePending(w.d, sn, ok).socks[sn].clash
    ensures Inv(w.(d := ReceivePending(w.d, sn, ok)))
  {
    hide LInv, ReceivePlan;
    var (sk, cs) := ReceivePlan(w.d.socks[sn], sn);
    ReceivePlanLanes(w.d.socks[sn], sn);
    PushAllPending(w.d.(socks := w.d.socks[sn := sk]), cs, ok);
    ReceiveAppended(w, w.(d := ReceivePending(w.d, sn, ok)), sn);
  }
}
