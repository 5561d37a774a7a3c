/** What the scheduler's operations do to the list of pending commands: back pushes append,
    front pushes insert before everything not yet started, failures change nothing, and
    starting a command-register write puts its read-back right behind it. */
module Scheduling {
  import opened Spi
  import opened DriverSpec
  import opened World
  import opened Lanes

  /** Commands that the driver queues; a socket's command register gets SEND and RECV from the
      driver and CONNECT, DISCON and CLOSE from tasks. */
  predicate ValidCmd(c: Cmd) {
    match c
    case Idle => false
    case WriteReg(sn, off, data) =>
      || sn >= SOCKETS
      || (off == Sn_CR && (data == [CR_SEND] || data == [CR_RECV])) || SocketCommand(sn, off, data)
      || off == Sn_DIPR || off == Sn_DPORT || off == Sn_TX_WR || off == Sn_RX_RD
      || OptionReg(sn, off)
    case ReadReg(sn, off, count, back) => true
    case ReadSir(_) => true
    case _ => c.sn < SOCKETS
  }

  ghost predicate ValidQueue(q: seq<Cmd>) {
    |q| <= COMMAND_QUEUE_SIZE && forall i :: 0 <= i < |q| ==> ValidCmd(q[i])
  }

  /** One transfer at a time: a transfer is in flight exactly while a command is running. */
  ghost predicate SchedInv(d: Drv) {
    && Wf(d) && ValidQueue(d.queue)
    && (d.running.Idle? <==> d.dma == NoDma)
    && (!d.running.Idle? ==> ValidCmd(d.running))
    && (!d.running.Idle? && !Polling(d) ==> d.dma == TransferOf(d.running))
    && (Polling(d) ==> d.running in d.queue)
  }

  /** A write to the command register of socket s is in flight. */
  predicate CrFlying(d: Drv, s: nat) {
    d.dma == Tx && IsCrWrite(d.running) && d.running.sn == s
  }

  predicate Resting(d: Drv) { d.running.Idle? && d.dma == NoDma }

  /** The next command is a command-register write and may go out. */
  predicate CrReady(d: Drv)
    requires Wf(d)
  {
    d.queue != [] && IsCrWrite(d.queue[0]) && d.socks[d.queue[0].sn].reg.cr == 0
  }

  lemma StartPending(d: Drv, ok: bool)
    requires SchedInv(d) && Resting(d)
    ensures var d' := Start(d, ok);
            && SchedInv(d') && d'.fails == d.fails && d'.socks == d.socks
            && Pending(d') == (if ok && CrReady(d) then [d.queue[0], ReadCr(d.queue[0].sn)] + d.queue[1..]
                               else Pending(d))
            && forall s :: CrFlying(d', s) <==> ok && CrReady(d) && s == d.queue[0].sn
  {
  }

  /** After a failed transfer nothing is in flight; its command is the next one again, or is
      counted as lost when the queue is full. */
  lemma FailurePending(d: Drv)
    requires SchedInv(d) && d.dma != NoDma && !Polling(d)
    ensures var d' := HandleSpiFailure(d);
            && SchedInv(d') && d'.socks == d.socks && Resting(d') && (forall s :: !CrFlying(d', s))
            && (if |d.queue| < COMMAND_QUEUE_SIZE then Pending(d') == Pending(d) && d'.fails == d.fails
                else Pending(d') == Pending(d)[1..] && d'.fails == d.fails + 1)
  {
  }

  lemma PendingEmpty(d: Drv)
    requires SchedInv(d)
    ensures Pending(d) == [] <==> d.running.Idle? && d.queue == []
  {
  }

  /** A push to the back, when not lost, appends. Onto an idle driver with nothing pending it
      also starts the command, and a command-register write then gets its read-back. */
  lemma PushBackPending(d: Drv, c: Cmd, ok: bool)
    requires SchedInv(d) && ValidCmd(c) && PushBack(d, c, ok).fails == d.fails
    ensures var d', placed := PushBack(d, c, ok), d.(queue := d.queue + [c]);
            && SchedInv(placed) && Pending(placed) == Pending(d) + [c]
               && (forall s :: CrFlying(placed, s) <==> CrFlying(d, s))
            && (Pending(d) == [] ==> Resting(placed))
            && d' == (if Pending(d) == [] then Start(placed, ok) else placed)
    ensures var d', starts := PushBack(d, c, ok), Pending(d) == [] && ok && CrReady(d.(queue := [c]));
            && SchedInv(d') && d'.socks == d.socks
            && Pending(d') == (if starts then [c, ReadCr(c.sn)] else Pending(d) + [c])
            && forall s :: CrFlying(d', s) <==> CrFlying(d, s) || (starts && s == c.sn)
    ensures !d.running.Idle? ==> PushBack(d, c, ok) == d.(queue := d.queue + [c])
  {
    PendingEmpty(d);
    var d1 := d.(queue := d.queue + [c]);
    if Pending(d) == [] {
      assert d1.queue == [c] && SchedInv(d1) && Resting(d1);
      StartPending(d1, ok);
    }
  }

  /** A push to the front that finds room goes before everything that has not started: before
      all pending commands when nothing is in flight or only a poll, which has to be started
      again anyway, and else right behind the one in flight. k says how many are ahead. */
  lemma PushFrontPending(d: Drv, c: Cmd, ok: bool) returns (k: nat)
    requires SchedInv(d) && ValidCmd(c) && !IsCrWrite(c) && |d.queue| < COMMAND_QUEUE_SIZE
    ensures Wf(d)
    ensures var d' := PushFront(d, c, ok);
            && SchedInv(d') && d'.socks == d.socks && d'.fails == d.fails
            && Pending(d') == (if d.running.Idle? || Polling(d) then [c] + Pending(d)
                               else [Pending(d)[0], c] + Pending(d)[1..])
            && forall s :: CrFlying(d', s) <==> CrFlying(d, s)
    ensures k == (if d.running.Idle? || Polling(d) then 0 else 1)
    ensures k <= |Pending(d)| && Pending(PushFront(d, c, ok)) == Pending(d)[..k] + [c] + Pending(d)[k..]
  {
    PendingEmpty(d);
    var d1 := d.(queue := [c] + d.queue);
    k := if d.running.Idle? || Polling(d) then 0 else 1;
    if d.queue == [] && d.running.Idle? {
      assert SchedInv(d1) && Resting(d1);
      StartPending(d1, ok);
    }
  }

  /** Only a full queue loses a front push. */
  lemma PushFrontRoom(d: Drv, c: Cmd, ok: bool)
    requires Wf(d)
    ensures PushFront(d, c, ok).fails == d.fails ==> |d.queue| < COMMAND_QUEUE_SIZE
    ensures |d.queue| >= COMMAND_QUEUE_SIZE ==> PushFront(d, c, ok) == d.(fails := d.fails + 1)
  {
  }

  lemma FirstThenRest(p: seq<Cmd>, cs: seq<Cmd>)
    requires cs != []
    ensures p + [cs[0]] + cs[1..] == p + cs
  {
  }

  /** Pushing a whole batch. */
  lemma {:induction false} PushAllPending(d: Drv, cs: seq<Cmd>, ok: bool)
    requires SchedInv(d) && (forall i :: 0 <= i < |cs| ==> ValidCmd(cs[i]))
    requires cs != [] && Pending(d) == [] ==> !IsCrWrite(cs[0])
    requires PushAll(d, cs, ok).fails == d.fails
    ensures var d' := PushAll(d, cs, ok);
            && SchedInv(d') && d'.socks == d.socks && Pending(d') == Pending(d) + cs
            && forall s :: CrFlying(d', s) <==> CrFlying(d, s)
    ensures !d.running.Idle? ==> PushAll(d, cs, ok) == d.(queue := d.queue + cs)
    decreases |cs|
  {
    if cs == [] {
      assert Pending(d) + cs == Pending(d) && d.queue + cs == d.queue;
    } else {
      hide PushBack, SchedInv, CrFlying, Start, Pending;
      var d1 := PushBack(d, cs[0], ok);
      PushBackFails(d, cs[0], ok);
      FailsGrow(d1, cs[1..], ok);
      PushBackPending(d, cs[0], ok);
      PushAllPending(d1, cs[1..], ok);
      FirstThenRest(Pending(d), cs);
      FirstThenRest(d.queue, cs);
    }
  }

  lemma PushBackFails(d: Drv, c: Cmd, ok: bool)
    requires Wf(d)
    ensures d.fails <= PushBack(d, c, ok).fails
  {
  }

  lemma {:induction false} FailsGrow(d: Drv, cs: seq<Cmd>, ok: bool)
    requires Wf(d)
    ensures d.fails <= PushAll(d, cs, ok).fails
    decreases |cs|
  {
    if cs != [] {
      PushBackFails(d, cs[0], ok);
      FailsGrow(PushBack(d, cs[0], ok), cs[1..], ok);
    }
  }
}
