/** Completions of read transfers: mirrors, received data and interrupt service. */
module ReadCompletion {
  import opened Bytes
  import opened Spi
  import opened RingAlloc
  import opened DriverSpec
  import opened Chip
  import opened World
  import opened Lanes
  import opened LocalInv
  import opened TxSteps
  import opened RxSteps
  import opened RegSteps
  import opened Scheduling
  import opened Invariant
  import opened Appending
  import opened TaskSteps
  import opened Completion

  /** The world after the running read has been dealt with. */
  function ReadDone(w: World): World
    requires Shape(w)
  {
    w.(d := Rest(DmaRxComplete(w.d, ReplyOf(w))))
  }

  /** Only the mirror or the buffer of the command's socket changes. */
  lemma ReadOne(w: World, sn: SockNo, sk: Sock)
    requires Inv(w) && InFlight(w.d) && Concerns(w.d.running, sn) && !w.d.running.ClearIr?
    requires LInv(sn, Popped(LocalOf(w, sn), sn, w.d.running, sk, w.chips[sn]))
    ensures Inv(w.(d := Rest(SetSock(w.d, sn, sk))))
  {
    hide LInv, LocalOf, SchedInv, ServiceInv, Popped;
    InvIsShape(w);
    var w' := w.(d := Rest(SetSock(w.d, sn, sk)));
    PoppedLocal(w, w', sn);
    PoppedOne(w, w', sn);
  }

  // ---- READ_REG -----------------------------------------------------------------------------

  lemma ReadRegView(s: SockNo, l: Local, c: Cmd)
    requires LInv(s, l) && Heads(l, s, c) && c.ReadReg? && c.sn == s
    ensures IsCrRead(c, s) ==> l.cr != [] && LInv(s, Popped(l, s, c, l.sk.(reg := l.sk.reg.(cr := l.ch.cr)), l.ch))
    ensures !IsCrRead(c, s) ==> LInv(s, Popped(l, s, c, l.sk.(reg := l.sk.reg.(sr := l.ch.sr)), l.ch))
    ensures !IsCrRead(c, s) ==> LInv(s, Popped(l, s, c, l.sk, l.ch))
  {
    hide LInv;
    if IsCrRead(c, s) {
      CrReadKeeps(s, l);
      assert AfterCrRead(l) == Popped(l, s, c, l.sk.(reg := l.sk.reg.(cr := l.ch.cr)), l.ch);
    } else {
      SrReadKeeps(s, l);
      assert l == Popped(l, s, c, l.sk, l.ch);
    }
  }

  lemma ReadRegKeeps(w: World, sn: SockNo)
    requires Inv(w) && InFlight(w.d) && w.d.running.ReadReg? && w.d.running.sn == sn
    ensures Inv(ReadDone(w))
  {
    hide LInv, LocalOf, SchedInv, ServiceInv, Popped, Heads;
    ViewOf(w, sn);
    var l, c := LocalOf(w, sn), w.d.running;
    ReadRegView(sn, l, c);
    LInvValid(sn, l);
    var sk :=
      if IsCrRead(c, sn) then l.sk.(reg := l.sk.reg.(cr := l.ch.cr))
      else if c.off == Sn_SR && c.count == 1 then l.sk.(reg := l.sk.reg.(sr := l.ch.sr))
      else l.sk;
    ReadOne(w, sn, sk);
    assert w.d.socks[sn := w.d.socks[sn]] == w.d.socks;
  }

  // ---- READ_BUF -----------------------------------------------------------------------------

  lemma ReadBufReply(s: SockNo, l: Local)
    requires LInv(s, l) && l.rx != [] && l.rx[0].ReadBuf?
    ensures ReadReply(l.ch, l.rx[0], l.sk.rxBuf).Bytes?
  {
    hide TxInv, CrInv, Awake, UdpAt, Taken, Header, RingRead, RxMemory;
    var p :| RxAt(s, l, p) && UdpAt(l, p);
    assert p.Reserved?;
    var g := Seg(p.at, p.at + p.n + 3, [], 0);
    ReservedInBounds(l.sk.rxq, g, |l.sk.rxBuf|);
  }

  lemma ReservedInBounds(q: seq<Seg>, g: Seg, n: nat)
    requires Layout(q + [g], n)
    ensures g.end <= n
  {
    assert PlaceOk(q + [g], |q|, n);
  }

  lemma ReadBufView(s: SockNo, l: Local, c: Cmd)
    requires LInv(s, l) && Heads(l, s, c) && c.ReadBuf? && c.sn == s
    ensures l.rx != [] && |l.ch.rxMem| > 0 && ReadReply(l.ch, c, l.sk.rxBuf).Bytes?
    ensures Popped(l, s, c, AfterReadBuf(l).sk, l.ch) == AfterReadBuf(l) && LInv(s, AfterReadBuf(l))
  {
    hide LInv, ReadReply;
    LInvValid(s, l);
    ReadBufReply(s, l);
    ReadBufKeeps(s, l);
  }

  lemma ReadBufCompletes(w: World, sn: SockNo)
    requires Inv(w) && InFlight(w.d) && w.d.running.ReadBuf? && w.d.running.sn == sn
    requires ReadDone(w).d.fails == w.d.fails
    ensures Inv(ReadDone(w))
  {
    hide LInv, LocalOf, SchedInv, ServiceInv, Popped, ReadReply;
    ViewOf(w, sn);
    var l, c := LocalOf(w, sn), w.d.running;
    ReadBufView(sn, l, c);
    ReadOne(w, sn, AfterReadBuf(l).sk);
  }

  // ---- Batches pushed on behalf of a running command ------------------------------------------

  lemma RestSchedInv(d: Drv)
    requires SchedInv(d)
    ensures SchedInv(Rest(d)) && Pending(Rest(d)) == d.queue && (forall s :: !CrFlying(Rest(d), s))
  {
  }

  lemma SockSched(d: Drv, sn: SockNo, sk: Sock)
    requires SchedInv(d)
    ensures SchedInv(SetSock(d, sn, sk))
  {
  }

  lemma ReceiveOnTop(d: Drv, sn: SockNo)
    requires Wf(d) && SchedInv(d) && !d.running.Idle? && ReceivePending(d, sn, true).fails == d.fails
    ensures var (sk, cs) := ReceivePlan(d.socks[sn], sn);
            var d' := ReceivePending(d, sn, true);
            && d' == SetSock(d, sn, sk).(queue := d.queue + cs) && SchedInv(d') && Appended(Rest(d), Rest(d'), cs)
  {
    hide ReceivePlan, SchedInv;
    var (sk, cs) := ReceivePlan(d.socks[sn], sn);
    ReceivePlanLanes(d.socks[sn], sn);
    SockSched(d, sn, sk);
    OntoBusy(SetSock(d, sn, sk), cs);
  }

  lemma SendOnTop(d: Drv, sn: SockNo)
    requires Wf(d) && SchedInv(d) && !d.running.Idle? && SendPending(d, sn, true).fails == d.fails
    ensures var (sk, cs) := SendPlan(d.socks[sn], sn);
            var d' := SendPending(d, sn, true);
            && d' == SetSock(d, sn, sk).(queue := d.queue + cs) && SchedInv(d') && Appended(Rest(d), Rest(d'), cs)
  {
    hide SendPlan, SchedInv;
    var (sk, cs) := SendPlan(d.socks[sn], sn);
    SendPlanLanes(d.socks[sn], sn);
    SockSched(d, sn, sk);
    OntoBusy(SetSock(d, sn, sk), cs);
  }

  lemma OntoBusy(d: Drv, cs: seq<Cmd>)
    requires SchedInv(d) && !d.running.Idle? && Ordinary(cs) && (cs != [] ==> !IsCrWrite(cs[0]))
    requires PushAll(d, cs, true).fails == d.fails
    ensures var d' := PushAll(d, cs, true);
            d' == d.(queue := d.queue + cs) && SchedInv(d') && Appended(Rest(d), Rest(d'), cs)
  {
    hide SchedInv;
    PushAllPending(d, cs, true);
    RestSchedInv(d);
    RestSchedInv(PushAll(d, cs, true));
  }

  // ---- CHECK_RCV and CHECK_TX_FSR ----------------------------------------------------------------

  lemma CheckRcvView(s: SockNo, l: Local, c: Cmd)
    requires LInv(s, l) && Heads(l, s, c) && c.CheckRcv? && c.sn == s
    ensures l.rx != []
    ensures Popped(l, s, c, AfterCheckRcv(l).sk, l.ch) == AfterCheckRcv(l) && LInv(s, AfterCheckRcv(l))
  {
    hide LInv;
    CheckRcvKeeps(s, l);
  }

  lemma CheckRcvCompletes(w: World, sn: SockNo)
    requires Inv(w) && InFlight(w.d) && w.d.running == CheckRcv(sn)
    requires ReadDone(w).d.fails == w.d.fails && !ReadDone(w).d.socks[sn].clash
    ensures Inv(ReadDone(w))
  {
    hide LInv, LocalOf, SchedInv, ServiceInv, Popped, Heads, ReceivePlan, ReceivePending, Appended;
    ViewOf(w, sn);
    InvIsShape(w);
    var l := LocalOf(w, sn);
    CheckRcvView(sn, l, w.d.running);
    LInvValid(sn, l);
    var d1 := SetSock(w.d, sn, AfterCheckRcv(l).sk);
    ReadOne(w, sn, AfterCheckRcv(l).sk);
    SockSched(w.d, sn, AfterCheckRcv(l).sk);
    ReceiveOnTop(d1, sn);
    ReceiveAppended(w.(d := Rest(d1)), ReadDone(w), sn);
  }

  lemma CheckTxView(s: SockNo, l: Local, c: Cmd)
    requires LInv(s, l) && Heads(l, s, c) && c == CheckTxFsr(s)
    ensures Popped(l, s, c, AfterTxRegs(l).sk, l.ch) == AfterTxRegs(l) && LInv(s, AfterTxRegs(l))
  {
    hide LInv;
    TxRegsKeep(s, l);
  }

  lemma CheckTxCompletes(w: World, sn: SockNo)
    requires Inv(w) && InFlight(w.d) && w.d.running == CheckTxFsr(sn)
    requires ReadDone(w).d.fails == w.d.fails
    ensures Inv(ReadDone(w))
  {
    hide LInv, LocalOf, SchedInv, ServiceInv, Popped, Heads, SendPlan, SendPending, Appended;
    ViewOf(w, sn);
    InvIsShape(w);
    var l := LocalOf(w, sn);
    CheckTxView(sn, l, w.d.running);
    LInvValid(sn, l);
    var d1 := SetSock(w.d, sn, AfterTxRegs(l).sk);
    ReadOne(w, sn, AfterTxRegs(l).sk);
    SockSched(w.d, sn, AfterTxRegs(l).sk);
    SendOnTop(d1, sn);
    SendAppended(w.(d := Rest(d1)), ReadDone(w), sn);
  }

  // ---- READ_SIR ----------------------------------------------------------------------------------

  /** READ_SOC commands for the flagged sockets below i, highest first. */
  function Socs(flagged: set<nat>, i: nat): seq<Cmd> {
    if i == 0 then [] else (if i - 1 in flagged then [ReadSoc(i - 1)] else []) + Socs(flagged, i - 1)
  }

  lemma {:induction false} PushSocsAdds(d: Drv, flagged: set<nat>, i: nat, done: seq<Cmd>, rest: seq<Cmd>)
    requires Wf(d) && i <= SOCKETS && d.queue == done + rest && done == Socs(flagged, i)
    requires PushSocs(d, flagged, i).fails == d.fails
    ensures PushSocs(d, flagged, i) == d.(queue := Socs(flagged, SOCKETS) + rest)
    ensures d.fails <= PushSocs(d, flagged, i).fails
    decreases SOCKETS - i
  {
    if i < SOCKETS {
      PushSocsFails(if i in flagged then QueueFront(d, ReadSoc(i)) else d, flagged, i + 1);
      var d1 := if i in flagged then QueueFront(d, ReadSoc(i)) else d;
      assert d1.queue == Socs(flagged, i + 1) + rest;
      PushSocsAdds(d1, flagged, i + 1, Socs(flagged, i + 1), rest);
    }
  }

  lemma {:induction false} PushSocsFails(d: Drv, flagged: set<nat>, i: nat)
    requires Wf(d) && i <= SOCKETS
    ensures d.fails <= PushSocs(d, flagged, i).fails
    ensures PushSocs(d, flagged, i).fails == d.fails && |d.queue| <= COMMAND_QUEUE_SIZE
            ==> |PushSocs(d, flagged, i).queue| <= COMMAND_QUEUE_SIZE
    decreases SOCKETS - i
  {
    if i < SOCKETS { PushSocsFails(if i in flagged then QueueFront(d, ReadSoc(i)) else d, flagged, i + 1); }
  }

  /** One READ_SOC per flagged socket. */
  lemma {:induction false} SocsAre(flagged: set<nat>, i: nat)
    ensures forall j :: 0 <= j < |Socs(flagged, i)| ==>
              Socs(flagged, i)[j].ReadSoc? && Socs(flagged, i)[j].sn in flagged && Socs(flagged, i)[j].sn < i
    ensures forall j, k :: 0 <= j < k < |Socs(flagged, i)| ==> Socs(flagged, i)[j].sn != Socs(flagged, i)[k].sn
  {
    if i > 0 { SocsAre(flagged, i - 1); }
  }

  lemma SocsInFront(w: World, d: Drv, cs: seq<Cmd>)
    requires Inv(w) && Resting(w.d)
    requires forall i :: 0 <= i < |w.d.queue| ==> !w.d.queue[i].ReadSoc? && !w.d.queue[i].ClearIr?
    requires forall j :: 0 <= j < |cs| ==> cs[j].ReadSoc? && cs[j].sn < SOCKETS && w.chips[cs[j].sn].ir != {}
    requires forall j, k :: 0 <= j < k < |cs| ==> cs[j].sn != cs[k].sn
    requires d == w.d.(queue := cs + w.d.queue) && |d.queue| <= COMMAND_QUEUE_SIZE
    ensures Inv(w.(d := d))
  {
    hide LInv;
    var q, q' := w.d.queue, cs + w.d.queue;
    assert forall i :: 0 <= i < |q'| ==> q'[i] == if i < |cs| then cs[i] else q[i - |cs|];
    assert SchedInv(d);
    forall s: SockNo
      ensures LInv(s, LocalOf(w.(d := d), s))
    {
      assert LInv(s, LocalOf(w, s));
      SocsOnNoLane(cs, q, s);
      assert LocalOf(w.(d := d), s) == LocalOf(w, s);
    }
  }

  lemma SocsOnNoLane(cs: seq<Cmd>, q: seq<Cmd>, s: SockNo)
    requires forall j :: 0 <= j < |cs| ==> cs[j].ReadSoc?
    ensures Sel(cs + q, RxLane(s)) == Sel(q, RxLane(s)) && Sel(cs + q, TxLane(s)) == Sel(q, TxLane(s))
    ensures Sel(cs + q, CrLane(s)) == Sel(q, CrLane(s))
  {
    SelJoin(cs, q, RxLane(s));
    SelJoin(cs, q, TxLane(s));
    SelJoin(cs, q, CrLane(s));
    SelNone(cs, RxLane(s));
    SelNone(cs, TxLane(s));
    SelNone(cs, CrLane(s));
  }

  lemma ReadSirCompletes(w: World)
    requires Inv(w) && InFlight(w.d) && w.d.running.ReadSir? && ReadDone(w).d.fails == w.d.fails
    ensures Inv(ReadDone(w))
  {
    hide LInv, LocalOf, SchedInv, PushSocs, Socs;
    InvIsShape(w);
    InFlightHead(w);
    SchedQueue(w.d);
    OrdinaryHead(Pending(w.d), w.chips);
    assert forall i :: 0 <= i < |w.d.queue| ==> w.d.queue[i] == Pending(w.d)[i + 1];
    var w0 := w.(d := Rest(w.d));
    PoppedNone(w, w0);
    var flagged := Sir(w.chips);
    NoSocsYet(flagged);
    PushSocsAdds(w.d, flagged, 0, [], w.d.queue);
    PushSocsFails(w.d, flagged, 0);
    SocsAre(flagged, SOCKETS);
    SocsInFront(w0, ReadDone(w).d, Socs(flagged, SOCKETS));
  }

  lemma NoSocsYet(flagged: set<nat>)
    ensures Socs(flagged, 0) == []
  {
  }

  lemma SchedQueue(d: Drv)
    requires SchedInv(d)
    ensures |d.queue| <= COMMAND_QUEUE_SIZE
  {
  }

  // ---- READ_SOC ----------------------------------------------------------------------------------

  predicate Ended(ir: set<Flag>) {
    SENDOK in ir || TIMEOUT in ir
  }

  /** What READ_SOC leaves in the socket record and what it pushes to the back. */
  function SocPlan(sk: Sock, sn: SockNo): (Sock, seq<Cmd>) {
    var (sk1, cs1) := if RECV in sk.reg.ir then ReceivePlan(sk, sn) else (sk, []);
    var (sk2, cs2) := if Ended(sk.reg.ir) then SendPlan(PopSent(sk1), sn) else (sk1, []);
    (sk2, cs1 + cs2)
  }

  lemma ReceivePendingFails(d: Drv, sn: SockNo)
    requires Wf(d)
    ensures d.fails <= ReceivePending(d, sn, true).fails
  {
    hide ReceivePlan;
    var (sk, cs) := ReceivePlan(d.socks[sn], sn);
    FailsGrow(d.(socks := d.socks[sn := sk]), cs, true);
  }

  lemma SendPendingFails(d: Drv, sn: SockNo)
    requires Wf(d)
    ensures d.fails <= SendPending(d, sn, true).fails
  {
    hide SendPlan;
    var (sk, cs) := SendPlan(d.socks[sn], sn);
    FailsGrow(d.(socks := d.socks[sn := sk]), cs, true);
  }

  /** The receive half of READ_SOC. */
  lemma SocReceives(d: Drv, sn: SockNo)
    requires Wf(d) && SchedInv(d) && !d.running.Idle?
    requires var d1 := if RECV in d.socks[sn].reg.ir then ReceivePending(d, sn, true) else d; d1.fails == d.fails
    ensures var (sk, cs) := if RECV in d.socks[sn].reg.ir then ReceivePlan(d.socks[sn], sn) else (d.socks[sn], []);
            var d1 := if RECV in d.socks[sn].reg.ir then ReceivePending(d, sn, true) else d;
            d1 == SetSock(d, sn, sk).(queue := d.queue + cs) && SchedInv(d1) && sk.reg == d.socks[sn].reg
  {
    hide SchedInv, ReceivePending;
    if RECV in d.socks[sn].reg.ir {
      ReceiveOnTop(d, sn);
    } else {
      assert d.queue + [] == d.queue && d.socks[sn := d.socks[sn]] == d.socks;
    }
  }

  /** The sending half. */
  lemma SocSends(d: Drv, sn: SockNo)
    requires Wf(d) && SchedInv(d) && !d.running.Idle?
    requires var d1 := SetSock(d, sn, PopSent(d.socks[sn])); SendPending(d1, sn, true).fails == d.fails
    ensures var (sk, cs) := SendPlan(PopSent(d.socks[sn]), sn);
            var d' := SendPending(SetSock(d, sn, PopSent(d.socks[sn])), sn, true);
            d' == SetSock(d, sn, sk).(queue := d.queue + cs) && SchedInv(d')
  {
    hide SchedInv, SendPending, SendPlan;
    SockSched(d, sn, PopSent(d.socks[sn]));
    SendOnTop(SetSock(d, sn, PopSent(d.socks[sn])), sn);
  }

  /** At most one end of sending is signalled, and a timeout only on UDP. */
  predicate OneEnd(ir: set<Flag>, mode: Mode) {
    !(SENDOK in ir && TIMEOUT in ir) && (TIMEOUT in ir ==> mode == Udp)
  }

  lemma SocHandled(d: Drv, sn: SockNo)
    requires Wf(d) && SchedInv(d) && !d.running.Idle? && HandleSoc(d, sn).fails == d.fails
    requires OneEnd(d.socks[sn].reg.ir, d.socks[sn].reg.mode)
    ensures var (sk, cs) := SocPlan(d.socks[sn], sn);
            && HandleSoc(d, sn) == SetSock(d, sn, sk).(queue := [ClearIr(sn, d.socks[sn].reg.ir)] + (d.queue + cs))
            && |d.queue + cs| < COMMAND_QUEUE_SIZE
  {
    hide SchedInv, SendPending, ReceivePending, SendPlan, ReceivePlan, PopSent;
    var ir := d.socks[sn].reg.ir;
    var d1 := if RECV in ir then ReceivePending(d, sn, true) else d;
    ReceivePendingFails(d, sn);
    if Ended(ir) {
      SendPendingFails(SetSock(d1, sn, PopSent(d1.socks[sn])), sn);
      SocReceives(d, sn);
      SocSends(d1, sn);
      var (sk1, cs1) := if RECV in ir then ReceivePlan(d.socks[sn], sn) else (d.socks[sn], []);
      var cs2 := SendPlan(PopSent(sk1), sn).1;
      assert (d.queue + cs1) + cs2 == d.queue + (cs1 + cs2);
    } else {
      SocReceives(d, sn);
      assert SocPlan(d.socks[sn], sn).1 == if RECV in ir then ReceivePlan(d.socks[sn], sn).1 else [];
    }
  }

  /** The socket's view after READ_SOC is the one-socket step. */
  lemma SocView(s: SockNo, l: Local)
    ensures var (sk, cs) := SocPlan(AfterMirror(l).sk, s);
            var l' := AfterSoc(s, l);
            l' == l.(ack := l.ch.ir, sk := sk, rx := l'.rx, tx := l'.tx, cr := l'.cr)
  {
    hide SendPlan, ReceivePlan;
  }

  lemma SocPlanLanes(sk: Sock, s: SockNo)
    ensures var cs := SocPlan(sk, s).1;
            && Ordinary(cs)
            && (forall i :: 0 <= i < |cs| ==> !cs[i].ReadSir? && !cs[i].Idle? && cs[i].sn == s)
  {
    hide SendPlan, ReceivePlan;
    var sk1 := if RECV in sk.reg.ir then ReceivePlan(sk, s).0 else sk;
    ReceivePlanLanes(sk, s);
    SendPlanLanes(PopSent(sk1), s);
    var cs := SocPlan(sk, s).1;
    var cs1 := if RECV in sk.reg.ir then ReceivePlan(sk, s).1 else [];
    var cs2 := if Ended(sk.reg.ir) then SendPlan(PopSent(sk1), s).1 else [];
    assert forall i :: 0 <= i < |cs| ==> cs[i] == if i < |cs1| then cs1[i] else cs2[i - |cs1|];
  }

  lemma JoinedLane(x: seq<Cmd>, cs1: seq<Cmd>, cs2: seq<Cmd>, lane: Lane)
    ensures x + Sel(cs1, lane) + Sel(cs2, lane) == x + Sel(cs1 + cs2, lane)
  {
    hide Sel;
    SelJoin(cs1, cs2, lane);
    assert x + Sel(cs1, lane) + Sel(cs2, lane) == x + (Sel(cs1, lane) + Sel(cs2, lane));
  }

  /** The lanes grow by the commands that belong to them. */
  predicate LanesGrow(l: Local, l': Local, s: SockNo, cs: seq<Cmd>) {
    && l'.rx == l.rx + Sel(cs, RxLane(s)) && l'.tx == l.tx + Sel(cs, TxLane(s)) && l'.cr == l.cr + Sel(cs, CrLane(s))
  }

  lemma LanesGrowTwice(l: Local, l1: Local, l2: Local, s: SockNo, cs1: seq<Cmd>, cs2: seq<Cmd>)
    requires LanesGrow(l, l1, s, cs1) && LanesGrow(l1, l2, s, cs2)
    ensures LanesGrow(l, l2, s, cs1 + cs2)
  {
    hide Sel;
    JoinedLane(l.rx, cs1, cs2, RxLane(s));
    JoinedLane(l.tx, cs1, cs2, TxLane(s));
    JoinedLane(l.cr, cs1, cs2, CrLane(s));
  }

  lemma NothingGrows(l: Local, s: SockNo)
    ensures LanesGrow(l, l, s, [])
  {
  }

  lemma ReceiveGrows(s: SockNo, l: Local)
    ensures LanesGrow(l, AfterReceivePlan(s, l), s, ReceivePlan(l.sk, s).1)
  {
    hide Sel, ReceivePlan;
    ReceivePlanLanes(l.sk, s);
    assert l.tx + [] == l.tx;
  }

  lemma SendGrows(s: SockNo, l: Local)
    ensures LanesGrow(l, AfterSendPlan(s, l), s, SendPlan(l.sk, s).1)
  {
    hide Sel, SendPlan;
    SendPlanLanes(l.sk, s);
    assert l.rx + [] == l.rx;
  }

  lemma SocLanes(l: Local, s: SockNo)
    ensures LanesGrow(l, AfterSoc(s, l), s, SocPlan(AfterMirror(l).sk, s).1)
  {
    hide Sel, SendPlan, ReceivePlan, AfterReceivePlan, AfterSendPlan;
    var l1 := AfterMirror(l);
    var l2 := if RECV in l.ch.ir then AfterReceivePlan(s, l1) else l1;
    var cs1 := if RECV in l.ch.ir then ReceivePlan(l1.sk, s).1 else [];
    if RECV in l.ch.ir { ReceiveGrows(s, l1); } else { NothingGrows(l1, s); }
    assert LanesGrow(l, l2, s, cs1);
    ReceivedSock(s, l1);
    var l3 := AfterSent(l2);
    if Ended(l.ch.ir) {
      SendGrows(s, l3);
      LanesGrowTwice(l, l2, AfterSendPlan(s, l3), s, cs1, SendPlan(l3.sk, s).1);
    } else {
      assert cs1 + [] == cs1;
    }
  }

  lemma ReceivedSock(s: SockNo, l: Local)
    ensures AfterReceivePlan(s, l).sk == ReceivePlan(l.sk, s).0
  {
    hide ReceivePlan;
  }

  /** The acknowledgement goes to the very front, the batches to the back. */
  lemma SocWorld(w: World, w': World, sn: SockNo, flags: set<Flag>, cs: seq<Cmd>)
    requires Inv(w) && InFlight(w.d) && w.d.running == ReadSoc(sn)
    requires w' == w.(d := w'.d) && Wf(w'.d) && Resting(w'.d)
    requires w'.d.queue == [ClearIr(sn, flags)] + (w.d.queue + cs) && |w.d.queue + cs| < COMMAND_QUEUE_SIZE
    requires w'.d.socks == w.d.socks[sn := w'.d.socks[sn]]
    requires Ordinary(cs) && (forall i :: 0 <= i < |cs| ==> !cs[i].ReadSir? && !cs[i].Idle? && cs[i].sn == sn)
    requires flags == w.chips[sn].ir
    requires LInv(sn, LocalOf(w', sn))
    ensures Inv(w')
  {
    hide LInv, LocalOf, SchedInv, ServiceInv;
    InFlightHead(w);
    InvIsShape(w);
    SocSched(w.d, w'.d, sn, flags, cs);
    ServiceOf(w);
    SocQueue(w.d.queue, cs, w.chips, sn);
    forall s: SockNo
      ensures LInv(s, LocalOf(w', s))
    {
      assert LInv(s, LocalOf(w, s));
      if s != sn { SocOther(w, w', sn, s, flags, cs); }
    }
  }

  lemma SocSched(d: Drv, d': Drv, sn: SockNo, flags: set<Flag>, cs: seq<Cmd>)
    requires SchedInv(d) && Wf(d') && Resting(d') && Ordinary(cs)
    requires d'.queue == [ClearIr(sn, flags)] + (d.queue + cs) && |d.queue + cs| < COMMAND_QUEUE_SIZE
    ensures SchedInv(d') && Pending(d') == d'.queue
  {
    var n := |d.queue|;
    assert forall i :: 0 <= i < |d'.queue| ==>
             d'.queue[i] == if i == 0 then ClearIr(sn, flags) else if i <= n then d.queue[i - 1] else cs[i - 1 - n];
  }

  lemma SocQueue(q: seq<Cmd>, cs: seq<Cmd>, chips: seq<ChipSock>, sn: SockNo)
    requires |chips| == SOCKETS && ServiceInv([ReadSoc(sn)] + q, chips) && Ordinary(cs)
    ensures ServiceInv([ClearIr(sn, chips[sn].ir)] + (q + cs), chips)
  {
    hide ServiceInv;
    var p, q', n := [ReadSoc(sn)] + q, [ClearIr(sn, chips[sn].ir)] + (q + cs), |q|;
    assert forall i :: 1 <= i < |q'| ==> q'[i] == if i <= n then p[i] else cs[i - 1 - n];
    SocService(p, q', chips, sn, n);
  }

  lemma SocService(p: seq<Cmd>, q: seq<Cmd>, chips: seq<ChipSock>, sn: SockNo, n: nat)
    requires |chips| == SOCKETS && ServiceInv(p, chips) && |p| == n + 1 <= |q| && p[0] == ReadSoc(sn)
    requires q[0] == ClearIr(sn, chips[sn].ir)
    requires forall i :: 1 <= i < |q| ==> if i <= n then q[i] == p[i] else !q[i].ClearIr? && !q[i].ReadSoc?
    ensures ServiceInv(q, chips)
  {
  }

  lemma SocOther(w: World, w': World, sn: SockNo, s: SockNo, flags: set<Flag>, cs: seq<Cmd>)
    requires Inv(w) && InFlight(w.d) && w.d.running == ReadSoc(sn) && s != sn
    requires w' == w.(d := w'.d) && Wf(w'.d) && Resting(w'.d)
    requires w'.d.queue == [ClearIr(sn, flags)] + (w.d.queue + cs)
    requires w'.d.socks[s] == w.d.socks[s]
    requires forall i :: 0 <= i < |cs| ==> !cs[i].ReadSir? && !cs[i].Idle? && cs[i].sn == sn
    ensures LocalOf(w', s) == LocalOf(w, s)
  {
    hide LInv, SchedInv, ServiceInv;
    InFlightHead(w);
    HeadsLanes(w, s);
    SocLaneOther(w.d.queue, cs, ReadSoc(sn), ClearIr(sn, flags), RxLane(s));
    SocLaneOther(w.d.queue, cs, ReadSoc(sn), ClearIr(sn, flags), TxLane(s));
    SocLaneOther(w.d.queue, cs, ReadSoc(sn), ClearIr(sn, flags), CrLane(s));
  }

  lemma SocLaneOther(q: seq<Cmd>, cs: seq<Cmd>, a: Cmd, b: Cmd, lane: Lane)
    requires !On(a, lane) && !On(b, lane) && forall i :: 0 <= i < |cs| ==> !On(cs[i], lane)
    ensures Sel([b] + (q + cs), lane) == Sel([a] + q, lane)
  {
    SelHead(b, q + cs, lane);
    SelHead(a, q, lane);
    SelJoin(q, cs, lane);
    SelNone(cs, lane);
  }

  lemma SocOwn(w: World, w': World, sn: SockNo)
    requires Inv(w) && InFlight(w.d) && w.d.running == ReadSoc(sn)
    requires w' == w.(d := w'.d) && Wf(w'.d) && Resting(w'.d)
    requires var l := LocalOf(w, sn);
             var (sk, cs) := SocPlan(AfterMirror(l).sk, sn);
             w'.d.queue == [ClearIr(sn, w.chips[sn].ir)] + (w.d.queue + cs) && w'.d.socks[sn] == sk
    ensures LocalOf(w', sn) == AfterSoc(sn, LocalOf(w, sn))
  {
    hide LInv, SchedInv, ServiceInv, AfterSoc, SocPlan, AfterMirror;
    InFlightHead(w);
    HeadsLanes(w, sn);
    var l := LocalOf(w, sn);
    var cs := SocPlan(AfterMirror(l).sk, sn).1;
    SocView(sn, l);
    SocLanes(l, sn);
    SocLaneOwn(w.d.queue, cs, ReadSoc(sn), ClearIr(sn, w.chips[sn].ir), RxLane(sn));
    SocLaneOwn(w.d.queue, cs, ReadSoc(sn), ClearIr(sn, w.chips[sn].ir), TxLane(sn));
    SocLaneOwn(w.d.queue, cs, ReadSoc(sn), ClearIr(sn, w.chips[sn].ir), CrLane(sn));
  }

  lemma SocLaneOwn(q: seq<Cmd>, cs: seq<Cmd>, a: Cmd, b: Cmd, lane: Lane)
    requires !On(a, lane) && !On(b, lane)
    ensures Sel([b] + (q + cs), lane) == Sel([a] + q, lane) + Sel(cs, lane)
  {
    SelHead(b, q + cs, lane);
    SelHead(a, q, lane);
    SelJoin(q, cs, lane);
  }

  /** READ_SOC finds at most one end of sending. */
  lemma OneEndSeen(w: World, sn: SockNo)
    requires Inv(w) && InFlight(w.d) && w.d.running == ReadSoc(sn)
    ensures LocalOf(w, sn).ack == {} && OneEnd(w.chips[sn].ir, w.chips[sn].mode)
  {
    hide SchedInv, ServiceInv, RxInv, Awake, CrInv;
    HeadsLanes(w, sn);
    var l := LocalOf(w, sn);
    assert LInv(sn, l);
    if Ended(l.ch.ir) { EndSeen(sn, l); }
  }

  lemma ReadSocCompletes(w: World, sn: SockNo)
    requires Inv(w) && InFlight(w.d) && w.d.running == ReadSoc(sn)
    requires ReadDone(w).d.fails == w.d.fails && !ReadDone(w).d.socks[sn].clash
    ensures Inv(ReadDone(w))
  {
    hide LInv, LocalOf, SchedInv, ServiceInv, HandleSoc, AfterSoc, SocPlan, Sel;
    InvIsShape(w);
    ViewOf(w, sn);
    var l := LocalOf(w, sn);
    LInvValid(sn, l);
    OneEndSeen(w, sn);
    var d1 := SetSock(w.d, sn, AfterMirror(l).sk);
    SockSched(w.d, sn, AfterMirror(l).sk);
    SocHandled(d1, sn);
    SocPlanLanes(AfterMirror(l).sk, sn);
    SocOwn(w, ReadDone(w), sn);
    SocView(sn, l);
    SocKeeps(sn, l);
    SocWorld(w, ReadDone(w), sn, w.chips[sn].ir, SocPlan(AfterMirror(l).sk, sn).1);
  }

  lemma ElsewhereReadCompletes(w: World)
    requires Inv(w) && InFlight(w.d) && w.d.running.ReadReg? && w.d.running.sn >= SOCKETS
    ensures Inv(ReadDone(w))
  {
    hide LInv, LocalOf, SchedInv, ServiceInv;
    InvIsShape(w);
    PoppedNone(w, ReadDone(w));
  }

  lemma ReadCompletes(w: World)
    requires Inv(w) && InFlight(w.d) && w.d.dma == TxRx
    requires ReadDone(w).d.fails == w.d.fails && forall s :: 0 <= s < SOCKETS ==> !ReadDone(w).d.socks[s].clash
    ensures Inv(ReadDone(w))
  {
    hide Inv, ReadDone;
    InFlightHead(w);
    match w.d.running {
      case ReadReg(sn, off, count, back) => if sn < SOCKETS { ReadRegKeeps(w, sn); } else { ElsewhereReadCompletes(w); }
      case ReadBuf(sn, start, len) => ReadBufCompletes(w, sn);
      case ReadSir(_) => ReadSirCompletes(w);
      case ReadSoc(sn) => ReadSocCompletes(w, sn);
      case CheckRcv(sn) => CheckRcvCompletes(w, sn);
      case CheckTxFsr(sn) => CheckTxCompletes(w, sn);
      case _ =>
    }
  }

  // ---- Any completion ------------------------------------------------------------------------------

  /** A poll of a busy command register changes nothing. */
  lemma PollCompletes(w: World)
    requires Inv(w) && Polling(w.d)
    ensures Inv(w.(d := Rest(w.d)))
  {
    hide LInv;
    var w' := w.(d := Rest(w.d));
    assert SchedInv(w'.d);
    forall s: SockNo
      ensures LInv(s, LocalOf(w', s))
    {
      assert LInv(s, LocalOf(w, s));
      assert LocalOf(w', s) == LocalOf(w, s);
    }
  }

  /** The state between the end of the transfer and the start of the next. */
  function Landed(w: World): World
    requires Shape(w)
  {
    if Polling(w.d) then w.(d := Rest(w.d)) else if w.d.dma == Tx then Written(w) else ReadDone(w)
  }

  lemma CompletionSplits(w: World, ok: bool)
    requires Shape(w) && SchedInv(w.d) && w.d.dma != NoDma
    ensures Wf(Landed(w).d) && Step(w, Complete(ok)).d == Start(Landed(w).d, ok)
    ensures Step(w, Complete(ok)).chips == Landed(w).chips && Step(w, Complete(ok)).hist == Landed(w).hist
    ensures Resting(Landed(w).d)
  {
    hide DmaRxComplete, ChipsAfter, AfterWrite, Start, ReplyOf;
    if Polling(w.d) {
      PollReply(w);
      StartForgets(w.d, ok);
    } else if w.d.dma == Tx {
      StartForgets(w.d, ok);
      WriteKeepsWorld(w);
    } else {
      StartForgets(DmaRxComplete(w.d, ReplyOf(w)), ok);
      ReadKeepsChips(w);
    }
  }

  lemma PollReply(w: World)
    requires Shape(w) && Polling(w.d)
    ensures DmaRxComplete(w.d, ReplyOf(w)) == w.d && ChipsAfter(w) == w.chips
  {
  }

  lemma ReadKeepsChips(w: World)
    requires Shape(w) && w.d.dma != Tx
    ensures ChipsAfter(w) == w.chips
  {
  }

  lemma WriteKeepsWorld(w: World)
    requires Shape(w)
    ensures Written(w) == w.(d := Rest(w.d), chips := ChipsAfter(w))
  {
    hide ChipsAfter;
  }

  lemma LandedKeeps(w: World)
    requires Inv(w) && w.d.dma != NoDma
    requires Landed(w).d.fails == w.d.fails && Wf(Landed(w).d)
    requires forall s :: 0 <= s < SOCKETS ==> !Landed(w).d.socks[s].clash
    ensures Inv(Landed(w))
  {
    hide Inv, ReadDone, Written;
    InvIsShape(w);
    if Polling(w.d) {
      PollCompletes(w);
    } else {
      InFlightDma(w);
      if w.d.dma == Tx { WriteCompletes(w); } else { ReadCompletes(w); }
    }
  }

  lemma InFlightDma(w: World)
    requires Inv(w) && w.d.dma != NoDma && !Polling(w.d)
    ensures InFlight(w.d)
  {
  }
}
