/** The guarantees in terms of what the calls of send, sendto, recv and recvfrom were given and returned. */
module Traces {
  import opened Bytes
  import opened Options
  import opened Spi
  import opened DriverSpec
  import opened Chip
  import opened World
  import opened Lanes
  import opened LocalInv
  import opened Records
  import opened Invariant
  import opened Runs
  import opened Theorems
  import opened RingAlloc
  import opened RxSteps
  import opened Calls

  /** Calls on one socket: payloads accepted with SOCK_OK, bytes returned by recv, datagrams
      returned by recvfrom. */
  datatype Trace = Trace(accepted: seq<Msg>, received: seq<byte>, datagrams: seq<Datagram>)

  function AcceptedBy(w: World, ev: Event, s: SockNo): seq<Msg>
    requires Shape(w) && Enabled(w, ev)
  {
    match ev
    case TaskSend(sn, buf, ok) => if sn == s && Send(w.d, sn, buf, ok).1 == SOCK_OK then [Msg(buf, [], 0)] else []
    case TaskSendTo(sn, buf, addr, port, ok) =>
      if sn == s && SendTo(w.d, sn, buf, addr, port, ok).1 == SOCK_OK then [Msg(buf, addr, port)] else []
    case _ => []
  }

  function ReceivedBy(w: World, ev: Event, s: SockNo): seq<byte>
    requires Shape(w)
  {
    if ev.TaskRecv? && ev.sn == s then Recv(w.d, s, ev.len, ev.ok).1 else []
  }

  function DatagramBy(w: World, ev: Event, s: SockNo): seq<Datagram>
    requires Shape(w)
  {
    if ev.TaskRecvFrom? && ev.sn == s then
      var dg := RecvFrom(w.d, s, ev.len, ev.ok).1;
      if dg == None then [] else [dg.value]
    else []
  }

  /** One step adds to the history exactly what the call was given or returned. */
  ghost predicate Recorded(w: World, ev: Event, s: SockNo)
    requires Shape(w) && Enabled(w, ev)
  {
    var w' := Step(w, ev);
    && |w'.hist| == SOCKETS == |w'.chips| && w'.chips[s].mode == w.chips[s].mode
    && w'.hist[s].accepted == w.hist[s].accepted + AcceptedBy(w, ev, s)
    && w'.hist[s].datagrams == w.hist[s].datagrams + DatagramBy(w, ev, s)
    && (w.chips[s].mode == Tcp ==> w'.hist[s].taken == w.hist[s].taken + ReceivedBy(w, ev, s))
  }

  lemma NothingRecorded(h: Hist)
    ensures h.accepted + [] == h.accepted && h.datagrams + [] == h.datagrams && h.taken + [] == h.taken
  {
  }

  lemma SendRecorded(w: World, ev: Event, s: SockNo)
    requires Shape(w) && Enabled(w, ev) && (ev.TaskSend? || ev.TaskSendTo?)
    ensures Recorded(w, ev, s)
  {
    hide Send, SendTo, ValidChip;
    NothingRecorded(w.hist[s]);
  }

  lemma ReceiveRecorded(w: World, ev: Event, s: SockNo)
    requires Shape(w) && Enabled(w, ev) && (ev.TaskRecv? || ev.TaskRecvFrom?)
    ensures Recorded(w, ev, s)
  {
    hide Recv, RecvFrom, Removed, TakeDatagram, ValidChip;
    NothingRecorded(w.hist[s]);
  }

  lemma ChipStepRecorded(w: World, ev: Event, s: SockNo)
    requires Shape(w) && Enabled(w, ev) && ev.ChipStep?
    ensures Recorded(w, ev, s)
  {
    hide InterruptCallback, StaleRecv, RingWrite, RingRead, ValidChip;
    NothingRecorded(w.hist[s]);
  }

  lemma CompleteRecorded(w: World, ev: Event, s: SockNo)
    requires Shape(w) && Enabled(w, ev) && ev.Complete?
    ensures Recorded(w, ev, s)
  {
    hide TransferComplete, ReplyOf, ValidChip, RingWrite;
    NothingRecorded(w.hist[s]);
  }

  lemma OtherRecorded(w: World, ev: Event, s: SockNo)
    requires Shape(w) && Enabled(w, ev) && !ev.TaskSend? && !ev.TaskSendTo? && !ev.TaskRecv? && !ev.TaskRecvFrom?
    ensures Recorded(w, ev, s)
  {
    if ev.ChipStep? {
      ChipStepRecorded(w, ev, s);
    } else if ev.Complete? {
      CompleteRecorded(w, ev, s);
    } else {
      hide HandleSpiFailure, TimerCallback, EnqueueSetReg, EnqueueGetReg, ValidChip, AfterEvent;
      NothingRecorded(w.hist[s]);
    }
  }

  function TraceOf(states: seq<World>, events: seq<Event>, i: nat, s: SockNo): Trace
    requires i < |states| && i <= |events| && forall k :: 0 <= k < i ==> OneStep(states[k], events[k], states[k + 1])
  {
    if i == 0 then Trace([], [], [])
    else
      var t := TraceOf(states, events, i - 1, s);
      assert OneStep(states[i - 1], events[i - 1], states[i - 1 + 1]);
      Trace(t.accepted + AcceptedBy(states[i - 1], events[i - 1], s),
            t.received + ReceivedBy(states[i - 1], events[i - 1], s),
            t.datagrams + DatagramBy(states[i - 1], events[i - 1], s))
  }

  /** The history kept in the state is the history at the start and then the trace of the
      calls. */
  lemma {:induction false} HistoryIsTrace(states: seq<World>, events: seq<Event>, i: nat, s: SockNo)
    requires Run(states, events) && i < |states|
    ensures |states[i].hist| == SOCKETS == |states[i].chips| && states[i].chips[s].mode == states[0].chips[s].mode
    ensures |states[0].hist| == SOCKETS == |states[0].chips|
    ensures var t, h, h0 := TraceOf(states, events, i, s), states[i].hist[s], states[0].hist[s];
            && t.accepted == h.accepted && h.datagrams == h0.datagrams + t.datagrams
            && (states[i].chips[s].mode == Tcp ==> h.taken == h0.taken + t.received)
  {
    hide Step, Enabled, AcceptedBy, ReceivedBy, DatagramBy;
    if i == 0 {
      assert Opened(states[0].d.socks[s], states[0].chips[s], states[0].hist[s]);
    } else {
      var w, ev := states[i - 1], events[i - 1];
      HistoryIsTrace(states, events, i - 1, s);
      assert OneStep(w, ev, states[i - 1 + 1]);
      if ev.TaskSend? || ev.TaskSendTo? { SendRecorded(w, ev, s); }
      else if ev.TaskRecv? || ev.TaskRecvFrom? { ReceiveRecorded(w, ev, s); }
      else { OtherRecorded(w, ev, s); }
    }
  }

  /** Main result. In every reachable state of every interleaving in which nothing has gone
      wrong: what the chip has sent is a prefix of what send and sendto accepted; on TCP what
      had arrived before the run, then what recv returned, then what is queued, then what is
      still in the chip is what arrived; on UDP the earlier datagrams and then what recvfrom
      returned are a prefix of the records that arrived. */
  lemma StreamsInOrder(states: seq<World>, events: seq<Event>, i: nat, s: SockNo)
    requires Reached(states, events, i)
    ensures Shape(states[0]) && Shape(states[i])
    ensures var w, t := states[i], TraceOf(states, events, i, s);
            var sk, ch, before := w.d.socks[s], w.chips[s], states[0].chips[s].arrived;
            && ch.sent <= t.accepted
            && (ch.mode == Tcp ==>
                  ch.arrived == before + t.received + Payloads(sk.rxBuf, sk.rxq)
                                + InChip(s, Sel(Pending(w.d), RxLane(s)), ch))
            && (ch.mode == Udp ==>
                  Whole(before) && Whole(ch.arrived) && Parse(before) + t.datagrams <= Parse(ch.arrived))
  {
    hide Inv, RxInv, InChip, Parse, Whole, TraceOf, LInv, Clean, Init, Sel;
    StartOpened(states, events, s);
    HistoryIsTrace(states, events, i, s);
    ReceiveConservation(states, events, i, s);
    TransmitStream(states, events, i, s);
    ReachedInv(states, events, i, s);
    if states[i].chips[s].mode == Udp { UdpOfInv(s, LocalOf(states[i], s)); }
  }

  lemma StartOpened(states: seq<World>, events: seq<Event>, s: SockNo)
    requires Run(states, events)
    ensures Shape(states[0]) && Opened(states[0].d.socks[s], states[0].chips[s], states[0].hist[s])
  {
    hide Whole, Parse;
  }

  lemma UdpOfInv(s: SockNo, l: Local)
    requires LInv(s, l) && l.ch.mode == Udp
    ensures Whole(l.ch.arrived) && l.h.datagrams <= Parse(l.ch.arrived)
  {
    hide TxInv, CrInv, Awake, RxInv, Whole, Parse;
    LocalDatagrams(s, l);
  }

  // ---- What recv returns in a run --------------------------------------------------------------------

  lemma LocalRings(s: SockNo, l: Local)
    requires LInv(s, l)
    ensures SendRing(l.sk) && ReceiveRing(l.sk)
  {
    hide Awake, CrInv, RxAt, UdpAt, RxMemory, TxStage, Layout, Payload;
    var p :| RxAt(s, l, p) && UdpAt(l, p);
    RxLayout(s, l, p);
  }

  /** In every reached state the segments of both queues of every socket are laid out, so that
      what is said of send, sendto and recv on such queues holds of every call in a run. */
  lemma RingsLaidOut(states: seq<World>, events: seq<Event>, i: nat, s: SockNo)
    requires Reached(states, events, i)
    ensures Wf(states[i].d) && SendRing(states[i].d.socks[s]) && ReceiveRing(states[i].d.socks[s])
  {
    hide Inv, LInv, Reached, SendRing, ReceiveRing;
    ReachedInv(states, events, i, s);
    LocalRings(s, LocalOf(states[i], s));
  }

  /** A recv on a TCP socket returns the payloads of the longest beginning of the receive queue
      that fits the caller's buffer, and with room for all of it returns all and leaves the queue
      empty. */
  lemma RecvReturns(states: seq<World>, events: seq<Event>, i: nat, s: SockNo, len: u16, ok: bool) returns (k: nat)
    requires Reached(states, events, i) && i < |events| && events[i] == TaskRecv(s, len, ok)
    ensures Shape(states[i]) && Wf(states[i + 1].d)
    ensures var sk, sk', data := states[i].d.socks[s], states[i + 1].d.socks[s], Recv(states[i].d, s, len, ok).1;
            && HandsOut(sk, len, sk'.rxq, data, k)
            && (|Payloads(sk.rxBuf, sk.rxq)| <= len ==> sk'.rxq == [] && data == Payloads(sk.rxBuf, sk.rxq))
  {
    hide Inv, LInv, Clean, Init, ReceiveRing, HandsOut, Recv, Payloads;
    RingsLaidOut(states, events, i, s);
    ReachedInv(states, events, i, s);
    assert OneStep(states[i], events[i], states[i + 1]);
    k := RecvHandsOut(states[i].d, s, len, ok);
    var sk, r := states[i].d.socks[s], Recv(states[i].d, s, len, ok);
    if |Payloads(sk.rxBuf, sk.rxq)| <= len { AllHandedOut(sk, len, r.0.socks[s].rxq, r.1, k); }
  }
}
