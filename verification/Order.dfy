/** The order of commands over whole runs: what has completed and what is pending is exactly
    what was pushed to the back, in push order and each once, and a socket's command register
    is not written again before a read has found it free. */
module Order {
  import opened Bytes
  import opened Spi
  import opened RingAlloc
  import opened DriverSpec
  import opened Chip
  import opened World
  import opened Lanes
  import opened LocalInv
  import opened Scheduling
  import opened Invariant
  import opened Appending
  import opened TaskSteps
  import opened Completion
  import opened ReadCompletion
  import opened Growth
  import opened Runs
  import opened Theorems

  /** No write to the command register of socket s is in flight, and none can start before the
      register has been read. */
  predicate CrHeld(d: Drv, s: SockNo)
    requires Wf(d)
  {
    && !CrFlying(d, s)
    && (d.socks[s].reg.cr != 0 || (Sel(Pending(d), CrLane(s)) != [] && IsCrRead(Sel(Pending(d), CrLane(s))[0], s)))
  }

  // ---- What goes before what ----------------------------------------------------------------------

  /** How many READ_SIR commands of the INT callback are among p. */
  function Sirs(p: seq<Cmd>): nat {
    if p == [] then 0 else (if p[0] == ReadSir(false) then 1 else 0) + Sirs(p[1..])
  }

  lemma {:induction false} SirsJoin(a: seq<Cmd>, b: seq<Cmd>)
    ensures Sirs(a + b) == Sirs(a) + Sirs(b)
  {
    if a == [] {
      assert a + b == b;
    } else {
      SirsJoin(a[1..], b);
      assert (a + b)[1..] == a[1..] + b;
    }
  }

  /** Among f are at least n READ_SIR commands of the INT callback, and of the commands pushed to
      the back none but x. */
  predicate Urgent(f: seq<Cmd>, x: seq<Cmd>, n: nat) {
    (Sel(f, BackLane) == [] || Sel(f, BackLane) == x) && Sirs(f) >= n
  }

  /** The commands of b are the last of p, and all before them are as Urgent says. */
  predicate Behind(p: seq<Cmd>, b: seq<Cmd>, x: seq<Cmd>, n: nat) {
    |b| <= |p| && p[|p| - |b|..] == b && Urgent(p[..|p| - |b|], x, n)
  }

  lemma BehindIff(f: seq<Cmd>, b: seq<Cmd>, x: seq<Cmd>, n: nat)
    ensures Behind(f + b, b, x, n) <==> Urgent(f, x, n)
  {
    hide Urgent;
    assert (f + b)[..|f|] == f && (f + b)[|f|..] == b;
  }

  lemma BehindParts(p: seq<Cmd>, b: seq<Cmd>, x: seq<Cmd>, n: nat) returns (f: seq<Cmd>)
    requires Behind(p, b, x, n) && n > 0
    ensures p == f + b && Urgent(f, x, n) && f != []
  {
    hide Sel;
    f := p[..|p| - |b|];
  }

  /** What is behind a READ_SIR of the INT callback stays behind it, and cs join at the end. */
  ghost predicate StaysBehind(d: Drv, d': Drv, cs: seq<Cmd>) {
    forall b, x, n: nat :: n > 0 && Behind(Pending(d), b, x, n) ==> Behind(Pending(d'), b + cs, x, n)
  }

  lemma StaysBehindTwice(a: Drv, b: Drv, c: Drv, y: seq<Cmd>, z: seq<Cmd>)
    requires StaysBehind(a, b, y) && StaysBehind(b, c, z)
    ensures StaysBehind(a, c, y + z)
  {
    hide Behind, Pending;
    forall q, x, n: nat | n > 0 && Behind(Pending(a), q, x, n)
      ensures Behind(Pending(c), q + (y + z), x, n)
    {
      assert Behind(Pending(b), q + y, x, n);
      Regrouped(q, y, z);
    }
  }

  lemma SameStaysBehind(d: Drv, d': Drv)
    requires Pending(d') == Pending(d)
    ensures StaysBehind(d, d', [])
  {
    hide Behind, Pending;
    forall b, x, n: nat | n > 0 && Behind(Pending(d), b, x, n)
      ensures Behind(Pending(d'), b + [], x, n)
    {
      assert b + [] == b;
    }
  }

  lemma AppendedStaysBehind(d: Drv, d': Drv, cs: seq<Cmd>)
    requires Pending(d') == Pending(d) + cs
    ensures StaysBehind(d, d', cs)
  {
    hide Behind, Pending, Urgent;
    forall b, x, n: nat | n > 0 && Behind(Pending(d), b, x, n)
      ensures Behind(Pending(d'), b + cs, x, n)
    {
      var f := BehindParts(Pending(d), b, x, n);
      BehindIff(f, b + cs, x, n);
      Regrouped(f, b, cs);
    }
  }

  /** Anything else may go in front of everything or right behind the first command. */
  lemma InsertedStaysBehind(d: Drv, d': Drv, k: nat, c: Cmd)
    requires k <= 1 && k <= |Pending(d)| && Pending(d') == Pending(d)[..k] + [c] + Pending(d)[k..]
    requires !FromBack(c)
    ensures StaysBehind(d, d', [])
  {
    hide Behind, Pending, Urgent, FromBack;
    forall b, x, n: nat | n > 0 && Behind(Pending(d), b, x, n)
      ensures Behind(Pending(d'), b + [], x, n)
    {
      var f := BehindParts(Pending(d), b, x, n);
      UrgentInsert(f, k, c, x, n);
      var f' := f[..k] + [c] + f[k..];
      assert Pending(d') == f' + b && b + [] == b;
      BehindIff(f', b, x, n);
    }
  }

  lemma UrgentInsert(f: seq<Cmd>, k: nat, c: Cmd, x: seq<Cmd>, n: nat)
    requires Urgent(f, x, n) && k <= |f| && !FromBack(c)
    ensures Urgent(f[..k] + [c] + f[k..], x, n)
  {
    hide FromBack;
    SelInsert(f, k, c, BackLane);
    SirsJoin(f[..k] + [c], f[k..]);
    SirsJoin(f[..k], [c]);
    SirsJoin(f[..k], f[k..]);
    assert f == f[..k] + f[k..];
  }

  /** Of the commands pushed to the back, those pending stay in place and cs are added behind
      them; what is behind a READ_SIR of the INT callback stays there; command registers stay
      held. */
  ghost predicate Onward(d: Drv, d': Drv, cs: seq<Cmd>) {
    && SchedInv(d) && SchedInv(d')
    && Sel(Pending(d'), BackLane) == Sel(Pending(d), BackLane) + cs
    && StaysBehind(d, d', cs)
    && forall s: SockNo :: CrHeld(d, s) ==> CrHeld(d', s)
  }

  lemma Regrouped(a: seq<Cmd>, x: seq<Cmd>, y: seq<Cmd>)
    ensures a + x + y == a + (x + y)
  {
  }

  lemma OnwardTwice(a: Drv, b: Drv, c: Drv, x: seq<Cmd>, y: seq<Cmd>)
    requires Onward(a, b, x) && Onward(b, c, y)
    ensures Onward(a, c, x + y)
  {
    hide CrHeld, Sel, SchedInv, Pending, StaysBehind;
    Regrouped(Sel(Pending(a), BackLane), x, y);
    StaysBehindTwice(a, b, c, x, y);
  }

  /** The second part adds nothing, or the first. */
  lemma OnwardThen(a: Drv, b: Drv, c: Drv, x: seq<Cmd>)
    requires (Onward(a, b, x) && Onward(b, c, [])) || (Onward(a, b, []) && Onward(b, c, x))
    ensures Onward(a, c, x)
  {
    hide Onward;
    if Onward(a, b, x) && Onward(b, c, []) { OnwardTwice(a, b, c, x, []); } else { OnwardTwice(a, b, c, [], x); }
    assert x + [] == x == [] + x;
  }

  ghost predicate AllFromBack(cs: seq<Cmd>) {
    forall i :: 0 <= i < |cs| ==> FromBack(cs[i])
  }

  predicate SameCr(d: Drv, d': Drv)
    requires Wf(d) && Wf(d')
  {
    forall s :: 0 <= s < SOCKETS ==> d'.socks[s].reg.cr == d.socks[s].reg.cr
  }

  lemma AppendOnward(d: Drv, d': Drv, cs: seq<Cmd>)
    requires Wf(d) && Wf(d') && SchedInv(d) && SchedInv(d') && SameCr(d, d')
    requires Pending(d') == Pending(d) + cs && (forall s :: CrFlying(d', s) <==> CrFlying(d, s)) && AllFromBack(cs)
    ensures Onward(d, d', cs)
  {
    hide SchedInv, CrFlying, StaysBehind;
    AppendedStaysBehind(d, d', cs);
    SelJoin(Pending(d), cs, BackLane);
    SelAll(cs, BackLane);
    forall s: SockNo | CrHeld(d, s)
      ensures CrHeld(d', s)
    {
      SelJoin(Pending(d), cs, CrLane(s));
    }
  }

  /** Commands of other kinds may go in front of everything or behind the one in flight. */
  lemma InsertOnward(d: Drv, d': Drv, k: nat, c: Cmd)
    requires Wf(d) && Wf(d') && SchedInv(d) && SchedInv(d') && SameCr(d, d') && k <= 1 && k <= |Pending(d)|
    requires Pending(d') == Pending(d)[..k] + [c] + Pending(d)[k..] && forall s :: CrFlying(d', s) <==> CrFlying(d, s)
    requires c == ReadSir(false)
    ensures Onward(d, d', [])
  {
    hide SchedInv, CrFlying, StaysBehind;
    InsertedStaysBehind(d, d', k, c);
    SelInsert(Pending(d), k, c, BackLane);
    forall s: SockNo | CrHeld(d, s)
      ensures CrHeld(d', s)
    {
      SelInsert(Pending(d), k, c, CrLane(s));
    }
  }

  lemma SchedWf(d: Drv)
    requires SchedInv(d)
    ensures Wf(d)
  {
  }

  lemma StartOnward(d: Drv, ok: bool)
    requires SchedInv(d) && Resting(d)
    ensures Onward(d, Start(d, ok), [])
  {
    hide SchedInv, CrFlying, Start, StaysBehind;
    SchedWf(d);
    StartPending(d, ok);
    var d' := Start(d, ok);
    if ok && CrReady(d) {
      var q := d.queue;
      assert [q[0], ReadCr(q[0].sn)] + q[1..] == q[..1] + [ReadCr(q[0].sn)] + q[1..];
      InsertedStaysBehind(d, d', 1, ReadCr(q[0].sn));
      ReadBackLane(q, q[0].sn, BackLane);
      forall s: SockNo | CrHeld(d, s)
        ensures CrHeld(d', s)
      {
        ReadBackLane(q, q[0].sn, CrLane(s));
      }
    } else {
      SameStaysBehind(d, d');
    }
  }

  lemma PushBackOnward(d: Drv, c: Cmd, ok: bool)
    requires Wf(d) && SchedInv(d) && ValidCmd(c) && FromBack(c) && PushBack(d, c, ok).fails == d.fails
    ensures Onward(d, PushBack(d, c, ok), [c])
  {
    hide SchedInv, CrFlying, PushBack, Start, Onward, FromBack;
    PushBackPending(d, c, ok);
    var placed := d.(queue := d.queue + [c]);
    AppendOnward(d, placed, [c]);
    if Pending(d) == [] {
      StartOnward(placed, ok);
      OnwardThen(d, placed, Start(placed, ok), [c]);
    }
  }

  lemma BatchOnward(d: Drv, sn: SockNo, sk: Sock, cs: seq<Cmd>, ok: bool)
    requires Wf(d) && SchedInv(d) && sk.reg.cr == d.socks[sn].reg.cr && Ordinary(cs) && (cs != [] ==> !IsCrWrite(cs[0]))
    requires PushAll(SetSock(d, sn, sk), cs, ok).fails == d.fails && AllFromBack(cs)
    ensures Onward(d, PushAll(SetSock(d, sn, sk), cs, ok), cs)
  {
    hide SchedInv, PushAll;
    SockSched(d, sn, sk);
    PushAllPending(SetSock(d, sn, sk), cs, ok);
    AppendOnward(d, PushAll(SetSock(d, sn, sk), cs, ok), cs);
  }

  lemma PlansFromBack(sk: Sock, sn: SockNo)
    ensures AllFromBack(SendPlan(sk, sn).1) && AllFromBack(ReceivePlan(sk, sn).1)
  {
    hide Put, Header, BufferIndex;
  }

  /** A change of one socket record, then sendPendingData. */
  lemma SendOnward(d: Drv, sn: SockNo, sk: Sock, ok: bool)
    requires Wf(d) && SchedInv(d) && sk.reg.cr == d.socks[sn].reg.cr
             && SendPending(SetSock(d, sn, sk), sn, ok).fails == d.fails
    ensures Onward(d, SendPending(SetSock(d, sn, sk), sn, ok), SendPlan(sk, sn).1)
  {
    hide SchedInv, PushAll, SendBatch, Put, Header, FromBack, Onward;
    var (sk1, cs) := SendPlan(sk, sn);
    SendPlanLanes(sk, sn);
    PlansFromBack(sk, sn);
    assert d.socks[sn := sk][sn := sk1] == d.socks[sn := sk1];
    BatchOnward(d, sn, sk1, cs, ok);
  }

  lemma ReceiveOnward(d: Drv, sn: SockNo, sk: Sock, ok: bool)
    requires Wf(d) && SchedInv(d) && sk.reg.cr == d.socks[sn].reg.cr
             && ReceivePending(SetSock(d, sn, sk), sn, ok).fails == d.fails
    ensures Onward(d, ReceivePending(SetSock(d, sn, sk), sn, ok), ReceivePlan(sk, sn).1)
  {
    hide SchedInv, PushAll, RecvBatch, Put, Header, BufferIndex, FromBack, Onward;
    var (sk1, cs) := ReceivePlan(sk, sn);
    ReceivePlanLanes(sk, sn);
    PlansFromBack(sk, sn);
    assert d.socks[sn := sk][sn := sk1] == d.socks[sn := sk1];
    BatchOnward(d, sn, sk1, cs, ok);
  }

  lemma OnwardSame(d: Drv)
    requires SchedInv(d)
    ensures Onward(d, d, [])
  {
    hide SchedInv, CrHeld, Sel, StaysBehind;
    SchedWf(d);
    SameStaysBehind(d, d);
    assert Sel(Pending(d), BackLane) + [] == Sel(Pending(d), BackLane);
  }

  // ---- What a step pushes to the back -------------------------------------------------------------

  /** The call ends before anything is placed. */
  predicate Refused(r: Ret) {
    r == INVALID_PARAM || r == INVALID_STATE || r == PACK_TOO_LRG
  }

  /** The free-space checks of a timer tick, from socket sn on. */
  function TxChecks(d: Drv, sn: nat): seq<Cmd>
    requires Wf(d) && sn <= SOCKETS
    decreases SOCKETS - sn
  {
    if sn == SOCKETS then []
    else (if d.socks[sn].reg.sr == Established then [CheckTxFsr(sn)] else []) + TxChecks(d, sn + 1)
  }

  /** The batches that follow a finished read. */
  function PushedByRead(w: World): seq<Cmd>
    requires Shape(w)
  {
    if w.d.dma != TxRx || Polling(w.d) || w.d.running.Idle? || w.d.running.ReadSir? || w.d.running.sn >= SOCKETS then []
    else
      var sn := w.d.running.sn;
      var sk, ch := w.d.socks[sn], w.chips[sn];
      match w.d.running
      case ReadSoc(_) => SocPlan(sk.(reg := ShownRegs(ch)), sn).1
      case CheckRcv(_) => ReceivePlan(sk.(reg := sk.reg.(rxRsr := RxRsr(ch), rxRd := ToU16(ch.rxRd)),
                                          receiving := false), sn).1
      case CheckTxFsr(_) => SendPlan(sk.(reg := sk.reg.(txFsr := TxFsr(ch), txWr := ToU16(ch.txWr))), sn).1
      case _ => []
  }

  /** Every command that the event pushes to the back of the queue, in order. */
  function PushedBy(w: World, ev: Event): seq<Cmd>
    requires Shape(w) && Enabled(w, ev)
  {
    match ev
    case TaskSend(sn, buf, ok) =>
      if Refused(Send(w.d, sn, buf, ok).1) then [] else SendPlan(Enqueue(w.d.socks[sn], buf, [], 0).0, sn).1
    case TaskSendTo(sn, buf, addr, port, ok) =>
      if Refused(SendTo(w.d, sn, buf, addr, port, ok).1) then []
          else SendPlan(Enqueue(w.d.socks[sn], buf, addr, port).0, sn).1
    case TaskRecv(sn, len, ok) =>
      if sn >= SOCKETS || len == 0 then [] else ReceivePlan(RecvCopy(w.d.socks[sn], len).0, sn).1
    case TaskRecvFrom(sn, len, ok) =>
      if sn >= SOCKETS || len == 0 then [] else ReceivePlan(TakeDatagram(w.d.socks[sn], len).0, sn).1
    case TaskSetReg(sn, off, data, ok) =>
      if |data| <= 7 && |w.d.queue| < COMMAND_QUEUE_SIZE then [WriteReg(sn, off, data)] else []
    case TaskGetReg(sn, off, count, ok) =>
      if count <= 7 && |w.d.queue| < COMMAND_QUEUE_SIZE then [ReadReg(sn, off, count, true)] else []
    case Complete(ok) => PushedByRead(w)
    case AsyncFailure => []
    case Timer(ok) => TxChecks(w.d, 0) + [ReadSir(true)]
    case ChipStep(sn, e, seen, ok) => []
  }

  // ---- Task calls -------------------------------------------------------------------------------

  lemma {:induction false} RecvCopyReg(sk: Sock, room: nat)
    ensures RecvCopy(sk, room).0.reg == sk.reg && RecvCopy(sk, room).0.receiving == sk.receiving
    decreases |sk.rxq|
  {
    hide Take, DataLen;
    if room > 0 && sk.rxq != [] && DataLen(sk.rxq[0]) <= room {
      RecvCopyReg(sk.(rxq := sk.rxq[1..]), room - DataLen(sk.rxq[0]));
    }
  }

  lemma EnqueueReg(sk: Sock, buf: seq<byte>, addr: seq<byte>, port: u16)
    ensures Enqueue(sk, buf, addr, port).0.reg == sk.reg && Enqueue(sk, buf, addr, port).0.receiving == sk.receiving
  {
    hide BufferIndex, Put;
  }

  lemma TakenReg(sk: Sock, len: u16)
    ensures TakeDatagram(sk, len).0.reg == sk.reg && TakeDatagram(sk, len).0.receiving == sk.receiving
  {
  }

  predicate IsTask(ev: Event) {
    ev.TaskSend? || ev.TaskSendTo? || ev.TaskRecv? || ev.TaskRecvFrom? || ev.TaskSetReg? || ev.TaskGetReg?
  }

  lemma SendCallOnward(w: World, sn: nat, buf: seq<byte>, ok: bool)
    requires Shape(w) && SchedInv(w.d) && |buf| < 65536 && Send(w.d, sn, buf, ok).0.fails == w.d.fails
    ensures Onward(w.d, Send(w.d, sn, buf, ok).0, PushedBy(w, TaskSend(sn, buf, ok)))
  {
    hide SchedInv, SendPending, SendPlan, Enqueue, TooLarge, Onward;
    OnwardSame(w.d);
    if !Refused(Send(w.d, sn, buf, ok).1) {
      EnqueueReg(w.d.socks[sn], buf, [], 0);
      SendOnward(w.d, sn, Enqueue(w.d.socks[sn], buf, [], 0).0, ok);
    } else {
      EnqueueAnswers(w.d.socks[sn % SOCKETS], buf, [], 0);
    }
  }

  lemma EnqueueAnswers(sk: Sock, buf: seq<byte>, addr: seq<byte>, port: u16)
    ensures !Refused(Enqueue(sk, buf, addr, port).1)
  {
    hide BufferIndex, Put;
  }

  lemma SendToCallOnward(w: World, sn: nat, buf: seq<byte>, addr: seq<byte>, port: u16, ok: bool)
    requires Shape(w) && SchedInv(w.d) && |buf| < 65536 && |addr| == 4
             && SendTo(w.d, sn, buf, addr, port, ok).0.fails == w.d.fails
    ensures Onward(w.d, SendTo(w.d, sn, buf, addr, port, ok).0, PushedBy(w, TaskSendTo(sn, buf, addr, port, ok)))
  {
    hide SchedInv, SendPending, SendPlan, Enqueue, TooLarge, Onward;
    OnwardSame(w.d);
    if !Refused(SendTo(w.d, sn, buf, addr, port, ok).1) {
      EnqueueReg(w.d.socks[sn], buf, addr, port);
      SendOnward(w.d, sn, Enqueue(w.d.socks[sn], buf, addr, port).0, ok);
    } else {
      EnqueueAnswers(w.d.socks[sn % SOCKETS], buf, addr, port);
    }
  }

  lemma ReceiveCallOnward(w: World, ev: Event)
    requires Shape(w) && SchedInv(w.d) && Enabled(w, ev) && (ev.TaskRecv? || ev.TaskRecvFrom?)
             && Step(w, ev).d.fails == w.d.fails
    ensures Onward(w.d, Step(w, ev).d, PushedBy(w, ev))
  {
    hide SchedInv, ReceivePending, ReceivePlan, RecvCopy, TakeDatagram, Removed, Onward;
    OnwardSame(w.d);
    if ev.sn < SOCKETS && ev.len != 0 {
      RecvCopyReg(w.d.socks[ev.sn], ev.len);
      TakenReg(w.d.socks[ev.sn], ev.len);
      ReceiveOnward(w.d, ev.sn, if ev.TaskRecv? then RecvCopy(w.d.socks[ev.sn], ev.len).0
                    else TakeDatagram(w.d.socks[ev.sn], ev.len).0, ev.ok);
    }
  }

  lemma RegisterCallOnward(w: World, ev: Event)
    requires Shape(w) && SchedInv(w.d) && Enabled(w, ev) && (ev.TaskSetReg? || ev.TaskGetReg?)
             && Step(w, ev).d.fails == w.d.fails
    ensures Onward(w.d, Step(w, ev).d, PushedBy(w, ev))
  {
    hide SchedInv, PushBack, Onward;
    OnwardSame(w.d);
    if PushedBy(w, ev) != [] {
      PushBackOnward(w.d, if ev.TaskSetReg? then WriteReg(ev.sn, ev.off, ev.data)
                     else ReadReg(ev.sn, ev.off, ev.count, true), ev.ok);
    }
  }

  lemma TaskOnward(w: World, ev: Event)
    requires Shape(w) && SchedInv(w.d) && Enabled(w, ev) && IsTask(ev) && Step(w, ev).d.fails == w.d.fails
    ensures Onward(w.d, Step(w, ev).d, PushedBy(w, ev))
  {
    hide SchedInv, Send, SendTo, Recv, RecvFrom, EnqueueSetReg, EnqueueGetReg, Removed, TakeDatagram, PushedBy, Onward;
    match ev {
      case TaskSend(sn, buf, ok) => SendCallOnward(w, sn, buf, ok);
      case TaskSendTo(sn, buf, addr, port, ok) => SendToCallOnward(w, sn, buf, addr, port, ok);
      case TaskRecv(sn, len, ok) => ReceiveCallOnward(w, ev);
      case TaskRecvFrom(sn, len, ok) => ReceiveCallOnward(w, ev);
      case TaskSetReg(sn, off, data, ok) => RegisterCallOnward(w, ev);
      case TaskGetReg(sn, off, count, ok) => RegisterCallOnward(w, ev);
    }
  }

  // ---- Timer, failure and INT ------------------------------------------------------------------------

  lemma {:induction false} TxChecksOnward(d: Drv, sn: nat, ok: bool)
    requires Wf(d) && SchedInv(d) && sn <= SOCKETS && PushTxChecks(d, sn, ok).fails == d.fails
    ensures Onward(d, PushTxChecks(d, sn, ok), TxChecks(d, sn))
    decreases SOCKETS - sn
  {
    hide SchedInv, PushBack, Onward;
    if sn == SOCKETS {
      OnwardSame(d);
    } else {
      var d1 := if d.socks[sn].reg.sr == Established then PushBack(d, CheckTxFsr(sn), ok) else d;
      var cs := if d.socks[sn].reg.sr == Established then [CheckTxFsr(sn)] else [];
      TxChecksFails(d1, sn + 1, ok);
      PushBackFails(d, CheckTxFsr(sn), ok);
      if d.socks[sn].reg.sr == Established { PushBackOnward(d, CheckTxFsr(sn), ok); } else { OnwardSame(d); }
      OnwardSched(d, d1, cs);
      TxChecksOnward(d1, sn + 1, ok);
      SameChecks(d, d1, sn + 1);
      OnwardTwice(d, d1, PushTxChecks(d1, sn + 1, ok), cs, TxChecks(d, sn + 1));
    }
  }

  lemma {:induction false} SameChecks(d: Drv, d': Drv, sn: nat)
    requires Wf(d) && d'.socks == d.socks && sn <= SOCKETS
    ensures TxChecks(d', sn) == TxChecks(d, sn)
    decreases SOCKETS - sn
  {
    if sn < SOCKETS { SameChecks(d, d', sn + 1); }
  }

  lemma OnwardSched(d: Drv, d': Drv, cs: seq<Cmd>)
    requires Onward(d, d', cs)
    ensures SchedInv(d) && SchedInv(d')
  {
  }

  lemma TimerOnward(w: World, ok: bool)
    requires Shape(w) && SchedInv(w.d) && Step(w, Timer(ok)).d.fails == w.d.fails
    ensures Onward(w.d, Step(w, Timer(ok)).d, PushedBy(w, Timer(ok)))
  {
    hide PushBack, PushTxChecks, Start, Onward, TxChecks;
    var d1 := if w.d.running.Idle? && w.d.queue != [] then Start(w.d, ok) else w.d;
    var d2 := PushTxChecks(d1, 0, ok);
    var cs := TxChecks(w.d, 0);
    TxChecksFails(d1, 0, ok);
    PushBackFails(d2, ReadSir(true), ok);
    StartGrows(w.d, ok);
    SameChecks(w.d, d1, 0);
    if w.d.running.Idle? && w.d.queue != [] { StartOnward(w.d, ok); } else { OnwardSame(w.d); }
    OnwardSched(w.d, d1, []);
    TxChecksOnward(d1, 0, ok);
    OnwardSched(d1, d2, cs);
    PushBackOnward(d2, ReadSir(true), ok);
    OnwardThen(w.d, d1, d2, cs);
    OnwardTwice(w.d, d2, PushBack(d2, ReadSir(true), ok), cs, [ReadSir(true)]);
  }

  lemma FailureOnward(d: Drv)
    requires SchedInv(d) && d.dma != NoDma && !Polling(d) && HandleSpiFailure(d).fails == d.fails
    ensures Onward(d, HandleSpiFailure(d), [])
  {
    hide SchedInv, HandleSpiFailure, CrFlying, StaysBehind;
    assert Sel(Pending(d), BackLane) + [] == Sel(Pending(d), BackLane);
    SchedWf(d);
    FailurePending(d);
    SameStaysBehind(d, HandleSpiFailure(d));
  }

  lemma InterruptOnward(d: Drv, ok: bool)
    requires Wf(d) && SchedInv(d) && InterruptCallback(d, ok).fails == d.fails
    ensures Onward(d, InterruptCallback(d, ok), [])
  {
    hide SchedInv, PushFront;
    PushFrontRoom(d, ReadSir(false), ok);
    var k := PushFrontPending(d, ReadSir(false), ok);
    InsertOnward(d, InterruptCallback(d, ok), k, ReadSir(false));
  }

  // ---- Completion -------------------------------------------------------------------------------------

  /** The running command reads the command register of socket s. */
  predicate ReadsCr(d: Drv, s: SockNo) {
    InFlight(d) && (IsCrRead(d.running, s) || d.running == ReadSoc(s))
  }

  /** The mirrored command registers after a completion. */
  ghost predicate CrMirrored(w: World, d': Drv)
    requires Shape(w) && Wf(d')
  {
    forall s: SockNo :: d'.socks[s].reg.cr == if ReadsCr(w.d, s) then w.chips[s].cr else w.d.socks[s].reg.cr
  }

  /** What a completion leaves in the queue: interrupt service in front, batches behind. */
  ghost predicate LandsAs(w: World, d': Drv, fs: seq<Cmd>, cs: seq<Cmd>)
    requires Shape(w)
  {
    && Wf(d') && d'.queue == fs + w.d.queue + cs && CrMirrored(w, d')
    && forall i :: 0 <= i < |fs| ==> fs[i].ReadSoc? || fs[i].ClearIr?
  }

  lemma LandsPlainly(w: World, d': Drv)
    requires Shape(w) && Wf(d') && d'.queue == w.d.queue && CrMirrored(w, d')
    ensures LandsAs(w, d', [], [])
  {
    assert [] + w.d.queue + [] == w.d.queue;
  }

  lemma PollLands(w: World)
    requires Shape(w) && (Polling(w.d) || w.d.dma == Tx) && SchedInv(w.d)
    ensures LandsAs(w, Landed(w).d, [], [])
  {
    hide ChipsAfter;
    LandsPlainly(w, Landed(w).d);
  }

  lemma ReadRegLands(w: World)
    requires Shape(w) && InFlight(w.d) && (w.d.running.ReadReg? || w.d.running.ReadBuf?)
    ensures LandsAs(w, ReadDone(w).d, [], [])
  {
    hide Put, Header, RingRead;
    LandsPlainly(w, ReadDone(w).d);
  }

  lemma SirLands(w: World)
    requires Shape(w) && SchedInv(w.d) && InFlight(w.d) && w.d.running.ReadSir? && ReadDone(w).d.fails == w.d.fails
    ensures LandsAs(w, ReadDone(w).d, Socs(Sir(w.chips), SOCKETS), [])
  {
    hide PushSocs, Socs;
    var flagged := Sir(w.chips);
    NoSocsYet(flagged);
    PushSocsAdds(w.d, flagged, 0, [], w.d.queue);
    SocsAre(flagged, SOCKETS);
    assert Socs(flagged, SOCKETS) + w.d.queue + [] == Socs(flagged, SOCKETS) + w.d.queue;
  }

  lemma PlansKeepReg(sk: Sock, s: SockNo)
    ensures ReceivePlan(sk, s).0.reg == sk.reg && SendPlan(sk, s).0.reg == sk.reg && SocPlan(sk, s).0.reg == sk.reg
  {
    hide Put, Header, BufferIndex, SendBatch, RecvBatch;
  }

  lemma SocLands(w: World, sn: SockNo)
    requires Inv(w) && InFlight(w.d) && w.d.running == ReadSoc(sn) && w.d.dma == TxRx
             && ReadDone(w).d.fails == w.d.fails
    ensures LandsAs(w, ReadDone(w).d, [ClearIr(sn, w.chips[sn].ir)], PushedByRead(w))
  {
    hide LInv, SchedInv, ServiceInv, HandleSoc, SocPlan;
    InvIsShape(w);
    OneEndSeen(w, sn);
    var sk := w.d.socks[sn].(reg := ShownRegs(w.chips[sn]));
    SockSched(w.d, sn, sk);
    SocHandled(SetSock(w.d, sn, sk), sn);
    PlansKeepReg(sk, sn);
    var f, cs := ClearIr(sn, w.chips[sn].ir), SocPlan(sk, sn).1;
    assert [f] + w.d.queue + cs == [f] + (w.d.queue + cs);
  }

  lemma CheckRcvLands(w: World, sn: SockNo)
    requires Shape(w) && SchedInv(w.d) && InFlight(w.d) && w.d.running == CheckRcv(sn) && w.d.dma == TxRx
    requires ReadDone(w).d.fails == w.d.fails && sn < SOCKETS
    ensures LandsAs(w, ReadDone(w).d, [], PushedByRead(w))
  {
    hide SchedInv, ReceivePlan, ReceivePending;
    var sk := w.d.socks[sn];
    var reg := sk.reg.(rxRsr := RxRsr(w.chips[sn]), rxRd := ToU16(w.chips[sn].rxRd));
    var sk1 := sk.(reg := reg, receiving := false);
    SockSched(w.d, sn, sk1);
    ReceiveOnTop(SetSock(w.d, sn, sk1), sn);
    PlansKeepReg(sk1, sn);
    var cs := ReceivePlan(sk1, sn).1;
    assert [] + w.d.queue + cs == w.d.queue + cs;
    assert LandsAs(w, ReadDone(w).d, [], cs);
  }

  lemma CheckTxLands(w: World, sn: SockNo)
    requires Shape(w) && SchedInv(w.d) && InFlight(w.d) && w.d.running == CheckTxFsr(sn) && w.d.dma == TxRx
    requires ReadDone(w).d.fails == w.d.fails && sn < SOCKETS
    ensures LandsAs(w, ReadDone(w).d, [], PushedByRead(w))
  {
    hide SchedInv, SendPlan, SendPending;
    var sk := w.d.socks[sn];
    var sk1 := sk.(reg := sk.reg.(txFsr := TxFsr(w.chips[sn]), txWr := ToU16(w.chips[sn].txWr)));
    SockSched(w.d, sn, sk1);
    SendOnTop(SetSock(w.d, sn, sk1), sn);
    PlansKeepReg(sk1, sn);
    var cs := SendPlan(sk1, sn).1;
    assert [] + w.d.queue + cs == w.d.queue + cs;
    assert LandsAs(w, ReadDone(w).d, [], cs);
  }

  lemma LandedLands(w: World) returns (fs: seq<Cmd>)
    requires Inv(w) && w.d.dma != NoDma && Landed(w).d.fails == w.d.fails
    ensures LandsAs(w, Landed(w).d, fs, PushedByRead(w))
  {
    hide Inv, LandsAs, ReadDone, Written, SchedInv, LInv, SocPlan, ReceivePlan, SendPlan;
    InvIsShape(w);
    fs := [];
    if Polling(w.d) || w.d.dma == Tx {
      PollLands(w);
    } else {
      InFlightDma(w);
      InFlightHead(w);
      match w.d.running {
        case ReadReg(sn, off, count, back) => ReadRegLands(w);
        case ReadBuf(sn, start, len) => ReadRegLands(w);
        case ReadSir(_) =>
          SirLands(w);
          fs := Socs(Sir(w.chips), SOCKETS);
        case ReadSoc(sn) =>
          SocLands(w, sn);
          fs := [ClearIr(sn, w.chips[sn].ir)];
        case CheckRcv(sn) => CheckRcvLands(w, sn);
        case CheckTxFsr(sn) => CheckTxLands(w, sn);
        case _ =>
      }
    }
  }

  /** The lane after a landing: popped if the command was on it, extended at its end. */
  lemma LandedLane(w: World, d': Drv, fs: seq<Cmd>, cs: seq<Cmd>, lane: Lane)
    requires Inv(w) && w.d.dma != NoDma && LandsAs(w, d', fs, cs) && Resting(d') && (lane.BackLane? || lane.CrLane?)
    ensures var before := Sel(Pending(w.d), lane);
            && (InFlight(w.d) && On(w.d.running, lane) ==> before != [] && before[0] == w.d.running)
            && Sel(Pending(d'), lane) == (if InFlight(w.d) && On(w.d.running, lane) then before[1..] else before)
               + Sel(cs, lane)
  {
    hide LInv, SchedInv, ServiceInv, CrMirrored, Sel;
    SelJoin(fs + w.d.queue, cs, lane);
    SelJoin(fs, w.d.queue, lane);
    SelNone(fs, lane);
    if Polling(w.d) {
    } else {
      InFlightDma(w);
      InFlightHead(w);
      SelHead(w.d.running, w.d.queue, lane);
    }
  }

  /** A read finds the command register of socket s free. */
  predicate FindsFree(w: World, ev: Event, s: SockNo)
    requires Shape(w)
  {
    ev.Complete? && ReadsCr(w.d, s) && w.chips[s].cr == 0
  }

  lemma LandedHolds(w: World, d': Drv, fs: seq<Cmd>, cs: seq<Cmd>, s: SockNo)
    requires Inv(w) && w.d.dma != NoDma && LandsAs(w, d', fs, cs) && Resting(d')
    requires CrHeld(w.d, s) && !(ReadsCr(w.d, s) && w.chips[s].cr == 0)
    ensures CrHeld(d', s)
  {
    hide LInv, SchedInv, ServiceInv, Sel;
    LandedLane(w, d', fs, cs, CrLane(s));
    if InFlight(w.d) { InFlightHead(w); }
  }

  /** A finished command-register write leaves its read-back next on the lane. */
  lemma WrittenHolds(w: World, d': Drv, fs: seq<Cmd>, cs: seq<Cmd>, s: SockNo)
    requires Inv(w) && CrFlying(w.d, s) && LandsAs(w, d', fs, cs) && Resting(d')
    ensures CrHeld(d', s)
  {
    hide SchedInv, ServiceInv, Sel, RxInv, TxInv, Awake;
    assert LInv(s, LocalOf(w, s));
    LandedLane(w, d', fs, cs, CrLane(s));
  }

  // ---- The log of commands pushed to the back -----------------------------------------------------------------

  /** Commands pushed to the back: the completed ones, then the pending ones. */
  function Log(w: World): seq<Cmd> {
    w.completed + Sel(Pending(w.d), BackLane)
  }

  lemma CompleteLog(w: World, ok: bool)
    requires Inv(w) && Clean(w) && Enabled(w, Complete(ok)) && Clean(Step(w, Complete(ok)))
    ensures Log(Step(w, Complete(ok))) == Log(w) + PushedByRead(w)
    ensures forall s: SockNo :: CrHeld(w.d, s) && !FindsFree(w, Complete(ok), s) ==> CrHeld(Step(w, Complete(ok)).d, s)
    ensures forall s: SockNo :: CrFlying(w.d, s) ==> CrHeld(Step(w, Complete(ok)).d, s)
  {
    hide Inv, Start, DmaRxComplete, ChipsAfter, ReplyOf, Landed, LandsAs, SchedInv, Sel, CrHeld, CrFlying, PushedByRead;
    InvIsShape(w);
    CompletionSplits(w, ok);
    var d1 := Landed(w).d;
    StartGrows(d1, ok);
    LandedGrows(w);
    var cs := PushedByRead(w);
    var fs := LandedLands(w);
    LandedKeeps(w);
    InvIsShape(Landed(w));
    ReadPushesBack(w);
    StartOnward(d1, ok);
    LandedLane(w, d1, fs, cs, BackLane);
    ShiftLog(w, d1, Step(w, Complete(ok)), cs);
    forall s: SockNo
      ensures CrHeld(w.d, s) && !FindsFree(w, Complete(ok), s) ==> CrHeld(d1, s)
      ensures CrFlying(w.d, s) ==> CrHeld(d1, s)
    {
      if CrHeld(w.d, s) && !FindsFree(w, Complete(ok), s) { LandedHolds(w, d1, fs, cs, s); }
      if CrFlying(w.d, s) { WrittenHolds(w, d1, fs, cs, s); }
    }
  }

  lemma ReadPushesBack(w: World)
    requires Shape(w)
    ensures Sel(PushedByRead(w), BackLane) == PushedByRead(w)
  {
    hide SendPlan, ReceivePlan, Sel, FromBack;
    var cs := PushedByRead(w);
    if cs != [] {
      var sn, sk, ch := w.d.running.sn, w.d.socks[w.d.running.sn], w.chips[w.d.running.sn];
      SocFromBack(sk.(reg := ShownRegs(ch)), sn);
      PlansFromBack(sk.(reg := sk.reg.(rxRsr := RxRsr(ch), rxRd := ToU16(ch.rxRd)), receiving := false), sn);
      PlansFromBack(sk.(reg := sk.reg.(txFsr := TxFsr(ch), txWr := ToU16(ch.txWr))), sn);
    }
    SelAll(cs, BackLane);
  }

  lemma SocFromBack(sk: Sock, sn: SockNo)
    ensures AllFromBack(SocPlan(sk, sn).1)
  {
    hide SendPlan, ReceivePlan, FromBack;
    var sk1 := if RECV in sk.reg.ir then ReceivePlan(sk, sn).0 else sk;
    PlansFromBack(sk, sn);
    PlansFromBack(PopSent(sk1), sn);
  }

  /** The completed command moves from the pending part of the log to the completed part. */
  lemma ShiftLog(w: World, d1: Drv, w': World, cs: seq<Cmd>)
    requires w.d.dma != NoDma
    requires w'.completed == if FromBack(w.d.running) && !Polling(w.d) then w.completed + [w.d.running] else w.completed
    requires var before := Sel(Pending(w.d), BackLane);
             && (InFlight(w.d) && On(w.d.running, BackLane) ==> before != [] && before[0] == w.d.running)
             && Sel(Pending(d1), BackLane)
                == (if InFlight(w.d) && On(w.d.running, BackLane) then before[1..] else before) + Sel(cs, BackLane)
    requires Sel(cs, BackLane) == cs && Sel(Pending(w'.d), BackLane) == Sel(Pending(d1), BackLane) + []
    ensures Log(w') == Log(w) + cs
  {
    hide Sel, Pending, Polling, FromBack;
    var before, now := Sel(Pending(w.d), BackLane), Sel(Pending(d1), BackLane);
    if InFlight(w.d) && On(w.d.running, BackLane) {
      assert w.completed + before == w.completed + [w.d.running] + before[1..];
      assert w'.completed + now == w.completed + before + cs;
    } else {
      assert w'.completed + now == w.completed + before + cs;
    }
  }

  lemma OtherOnward(w: World, ev: Event)
    requires Inv(w) && Clean(w) && Enabled(w, ev) && Clean(Step(w, ev)) && !ev.Complete?
    ensures Onward(w.d, Step(w, ev).d, PushedBy(w, ev)) && Step(w, ev).completed == w.completed
  {
    hide Inv, Onward, HandleSpiFailure, TimerCallback, InterruptCallback, Send, SendTo, Recv, RecvFrom, EnqueueSetReg,
         EnqueueGetReg, AfterEvent, StaleRecv, Removed, TakeDatagram, SchedInv, TxChecks;
    InvIsShape(w);
    OnwardSame(w.d);
    if IsTask(ev) {
      TaskOnward(w, ev);
    } else {
      match ev {
        case AsyncFailure => FailureOnward(w.d);
        case Timer(ok) => TimerOnward(w, ok);
        case ChipStep(sn, e, seen, ok) => if Step(w, ev).d != w.d { InterruptOnward(w.d, ok); }
        case _ =>
      }
    }
  }

  /** One step: the log grows at its end by exactly what the event pushes to the back, and a
      held command register stays held unless a read finds it free. */
  lemma StepOrder(w: World, ev: Event)
    requires Inv(w) && Clean(w) && Enabled(w, ev) && Clean(Step(w, ev))
    ensures Shape(w) && Wf(Step(w, ev).d) && Log(Step(w, ev)) == Log(w) + PushedBy(w, ev)
    ensures forall s: SockNo :: CrHeld(w.d, s) && !FindsFree(w, ev, s) ==> CrHeld(Step(w, ev).d, s)
    ensures ev.Complete? ==> forall s: SockNo :: CrFlying(w.d, s) ==> CrHeld(Step(w, ev).d, s)
  {
    hide Inv, Step, Clean, Enabled, CrHeld, CrFlying, Sel, SchedInv, PushedByRead;
    InvIsShape(w);
    StepGrows(w, ev);
    if ev.Complete? {
      CompleteLog(w, ev.ok);
    } else {
      hide PushedBy;
      OtherOnward(w, ev);
      var a, b, cs := w.completed, Sel(Pending(w.d), BackLane), PushedBy(w, ev);
      assert a + (b + cs) == (a + b) + cs;
    }
  }

  // ---- Over runs ---------------------------------------------------------------------------------------------

  lemma EarlierReached(states: seq<World>, events: seq<Event>, i: nat)
    requires Reached(states, events, i) && i > 0
    ensures i < |states| == |events| + 1
    ensures Reached(states, events, i - 1) && CleanStep(states[i - 1], events[i - 1], states[i])
  {
    hide Clean, Init, Step, Enabled;
    assert OneStep(states[i - 1], events[i - 1], states[i - 1 + 1]);
    CleanBackwards(states[i - 1], events[i - 1]);
  }

  /** One clean step between reached states. */
  ghost predicate CleanStep(w: World, ev: Event, w': World) {
    OneStep(w, ev, w') && Clean(w) && Clean(w')
  }

  /** Everything that the first i events of a run have pushed to the back, in order. */
  function AllPushed(states: seq<World>, events: seq<Event>, i: nat): seq<Cmd>
    requires i < |states| && i <= |events| && forall k :: 0 <= k < i ==> OneStep(states[k], events[k], states[k + 1])
  {
    if i == 0 then []
    else
      assert OneStep(states[i - 1], events[i - 1], states[i - 1 + 1]);
      AllPushed(states, events, i - 1) + PushedBy(states[i - 1], events[i - 1])
  }

  /** First-in first-out: at every moment of a run the completed back pushes, followed by the
      pending ones, are all back pushes made so far. Hence they complete in push order and each
      exactly once, and none is made up, whatever is pushed to the front and however often a
      transfer fails. */
  lemma {:induction false} BackPushesComplete(states: seq<World>, events: seq<Event>, i: nat)
    requires Reached(states, events, i)
    ensures states[i].completed + Sel(Pending(states[i].d), BackLane) == AllPushed(states, events, i)
  {
    hide Clean, Step, Enabled, Inv, Sel, PushedBy, Opened;
    if i == 0 {
      NothingPending(states[0]);
    } else {
      EarlierReached(states, events, i);
      ReachedInv(states, events, i - 1, 0);
      StepOrder(states[i - 1], events[i - 1]);
      BackPushesComplete(states, events, i - 1);
    }
  }

  lemma NothingPending(w: World)
    requires Init(w)
    ensures Log(w) == []
  {
    hide Opened;
  }

  /** Step k of the run is the completion of a read that finds the command register of socket
      s free. */
  ghost predicate FreeAt(states: seq<World>, events: seq<Event>, k: nat, s: SockNo) {
    k < |events| && k < |states| && Shape(states[k]) && FindsFree(states[k], events[k], s)
  }

  lemma HeldStep(w: World, ev: Event, w': World, s: SockNo)
    requires Inv(w) && CleanStep(w, ev, w')
    ensures Shape(w) && Wf(w'.d)
    ensures CrHeld(w.d, s) && !FindsFree(w, ev, s) ==> CrHeld(w'.d, s)
    ensures ev.Complete? && CrFlying(w.d, s) ==> CrHeld(w'.d, s)
  {
    hide Inv, Clean, Step, Enabled, CrHeld, CrFlying, FindsFree, Log, PushedBy;
    StepOrder(w, ev);
  }

  lemma {:induction false} HeldUntil(states: seq<World>, events: seq<Event>, i: nat, j: nat, s: SockNo)
    requires Reached(states, events, j) && i < j && CrFlying(states[i].d, s) && events[i].Complete?
    requires forall k :: i < k < j ==> !FreeAt(states, events, k, s)
    ensures Wf(states[j].d) && CrHeld(states[j].d, s)
    decreases j - i
  {
    hide Reached, CleanStep, Inv, CrHeld, CrFlying, FindsFree, Shape, LInv, LocalOf;
    EarlierReached(states, events, j);
    ReachedInv(states, events, j - 1, s);
    HeldStep(states[j - 1], events[j - 1], states[j], s);
    if i < j - 1 {
      HeldUntil(states, events, i, j - 1, s);
      assert !FreeAt(states, events, j - 1, s);
    }
  }

  /** After an accepted write to a socket's command register, no further write to it starts
      until a later read has mirrored the register as free. */
  lemma NoCommandBeforeFree(states: seq<World>, events: seq<Event>, i: nat, j: nat, s: SockNo)
    requires Reached(states, events, j) && i < j && j < |states|
    requires events[i].Complete? && CrFlying(states[i].d, s) && CrFlying(states[j].d, s)
    ensures exists k :: i < k < j && FreeAt(states, events, k, s)
  {
    hide Reached, CrFlying, FreeAt, Sel;
    if forall k :: i < k < j ==> !FreeAt(states, events, k, s) {
      HeldUntil(states, events, i, j, s);
      assert false;
    }
  }
}
