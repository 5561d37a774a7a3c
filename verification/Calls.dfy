/** What the task calls answer, in terms of the socket before the call and of its result. */
module Calls {
  import opened Bytes
  import opened Spi
  import opened RingAlloc
  import opened DriverSpec
  import opened World
  import opened LocalInv
  import opened RxSteps

  // ---- send and sendto -----------------------------------------------------------------------

  ghost predicate SendRing(sk: Sock) {
    Layout(sk.txq, |sk.txBuf|) && |sk.txBuf| <= 32767
  }

  /** The answer to a payload that is sent in the right state: too large for the chip's memory or
      for the buffer; no place in the buffer; a place but no room in the queue; accepted. */
  ghost predicate Answered(sk: Sock, buf: seq<byte>, r: Ret) {
    if |buf| > sk.txKb * 1024 || |buf| + 3 > |sk.txBuf| then r == PACK_TOO_LRG
    else if !Placeable(sk.txq, |buf| + 3, |sk.txBuf|) then r == TXBUF_FULL
    else if |sk.txq| >= 15 then r == QUEUE_FULL
    else r == SOCK_OK
  }

  lemma EnqueueAnswered(sk: Sock, buf: seq<byte>, addr: seq<byte>, port: u16)
    requires SendRing(sk) && !TooLarge(sk, buf)
    ensures Answered(sk, buf, Enqueue(sk, buf, addr, port).1)
  {
    hide BufferIndex, Put, Placeable, Layout;
    PlacedIffPlaceable(sk.txq, |sk.txBuf|, |buf| + 3);
  }

  /** Which code send returns, for every driver whose send queue is laid out. */
  lemma SendAnswers(d: Drv, sn: nat, buf: seq<byte>, ok: bool)
    requires Wf(d) && |buf| < 65536 && (sn < SOCKETS ==> SendRing(d.socks[sn]))
    ensures var r := Send(d, sn, buf, ok).1;
            if sn >= SOCKETS || buf == [] then r == INVALID_PARAM
            else if d.socks[sn].reg.sr !in {Established, CloseWait} then r == INVALID_STATE
            else Answered(d.socks[sn], buf, r)
  {
    hide SendPending, Enqueue, SendRing, Placeable;
    if sn < SOCKETS && !TooLarge(d.socks[sn], buf) { EnqueueAnswered(d.socks[sn], buf, [], 0); }
  }

  lemma SendToAnswers(d: Drv, sn: nat, buf: seq<byte>, addr: seq<byte>, port: u16, ok: bool)
    requires Wf(d) && |buf| < 65536 && (sn < SOCKETS ==> SendRing(d.socks[sn]))
    ensures var r := SendTo(d, sn, buf, addr, port, ok).1;
            if sn >= SOCKETS || buf == [] || port == 0 then r == INVALID_PARAM
            else if d.socks[sn].reg.sr != UdpOpen then r == INVALID_STATE
            else Answered(d.socks[sn], buf, r)
  {
    hide SendPending, Enqueue, SendRing, Placeable;
    if sn < SOCKETS && !TooLarge(d.socks[sn], buf) { EnqueueAnswered(d.socks[sn], buf, addr, port); }
  }

  // ---- recv ------------------------------------------------------------------------------------

  ghost predicate ReceiveRing(sk: Sock) {
    Layout(sk.rxq, |sk.rxBuf|) && Filled(sk.rxq) && |sk.rxBuf| <= 32767
  }

  /** The payloads of the first k queued segments are handed out and those segments leave the
      queue; the next one, if any, does not fit the room that is left. */
  ghost predicate HandsOut(sk: Sock, room: nat, rest: seq<Seg>, data: seq<byte>, k: nat) {
    && k <= |sk.rxq| && rest == sk.rxq[k..] && data == Payloads(sk.rxBuf, sk.rxq[..k]) && |data| <= room
    && (k < |sk.rxq| ==> |data| + |Payload(sk.rxBuf, sk.rxq[k])| > room)
  }

  lemma FilledPayload(sk: Sock)
    requires ReceiveRing(sk) && sk.rxq != []
    ensures var p := Payload(sk.rxBuf, sk.rxq[0]);
            p == Take(sk.rxBuf, sk.rxq[0].start + 3, DataLen(sk.rxq[0])) && |p| == DataLen(sk.rxq[0]) > 0
    ensures ReceiveRing(sk.(rxq := sk.rxq[1..]))
  {
    assert PlaceOk(sk.rxq, 0, |sk.rxBuf|);
    CopiedIsPayload(sk);
    PopKeepsLayout(sk.rxq, |sk.rxBuf|);
  }

  lemma HandsOutNothing(sk: Sock, room: nat)
    requires sk.rxq != [] ==> |Payload(sk.rxBuf, sk.rxq[0])| > room
    ensures HandsOut(sk, room, sk.rxq, [], 0)
  {
    hide Payload;
  }

  lemma HandsOutOneMore(sk: Sock, room: nat, rest: seq<Seg>, data: seq<byte>, k: nat)
    requires sk.rxq != [] && |Payload(sk.rxBuf, sk.rxq[0])| <= room
    requires HandsOut(sk.(rxq := sk.rxq[1..]), room - |Payload(sk.rxBuf, sk.rxq[0])|, rest, data, k)
    ensures HandsOut(sk, room, rest, Payload(sk.rxBuf, sk.rxq[0]) + data, k + 1)
  {
    hide Payload;
    assert sk.rxq[..k + 1][1..] == sk.rxq[1..][..k];
  }

  lemma {:induction false} CopyHandsOut(sk: Sock, room: nat) returns (k: nat)
    requires ReceiveRing(sk)
    ensures var r := RecvCopy(sk, room); r.0 == sk.(rxq := r.0.rxq) && HandsOut(sk, room, r.0.rxq, r.1, k)
    decreases |sk.rxq|
  {
    hide ReceiveRing, Take, DataLen, Payload, HandsOut;
    k := 0;
    if sk.rxq != [] { FilledPayload(sk); }
    if sk.rxq != [] && |Payload(sk.rxBuf, sk.rxq[0])| <= room {
      var sk1 := sk.(rxq := sk.rxq[1..]);
      var left := room - |Payload(sk.rxBuf, sk.rxq[0])|;
      k := CopyHandsOut(sk1, left);
      var r := RecvCopy(sk1, left);
      HandsOutOneMore(sk, room, r.0.rxq, r.1, k);
      k := k + 1;
    } else {
      HandsOutNothing(sk, room);
    }
  }

  /** What recv returns is the payloads of the longest beginning of the receive queue that fits
      the caller's buffer, and exactly those segments are gone from the queue. */
  lemma RecvHandsOut(d: Drv, sn: SockNo, len: u16, ok: bool) returns (k: nat)
    requires Wf(d) && ReceiveRing(d.socks[sn])
    ensures var r := Recv(d, sn, len, ok);
            && HandsOut(d.socks[sn], len, r.0.socks[sn].rxq, r.1, k)
            && forall s: SockNo :: s != sn ==> r.0.socks[s] == d.socks[s]
  {
    hide ReceiveRing, RecvCopy, HandsOut, PushAll, Put, Header, RecvBatch, BufferIndex;
    k := CopyHandsOut(d.socks[sn], len);
    if len == 0 { NothingAsked(d.socks[sn]); }
  }

  lemma NothingAsked(sk: Sock)
    ensures RecvCopy(sk, 0) == (sk, [])
  {
  }

  lemma {:induction false} PayloadsJoin(buf: seq<byte>, a: seq<Seg>, b: seq<Seg>)
    ensures Payloads(buf, a + b) == Payloads(buf, a) + Payloads(buf, b)
  {
    hide Payload;
    if a == [] {
      assert a + b == b;
    } else {
      PayloadsJoin(buf, a[1..], b);
      assert (a + b)[1..] == a[1..] + b;
    }
  }

  /** With room for everything that is queued, recv returns all of it and empties the queue. */
  lemma AllHandedOut(sk: Sock, room: nat, rest: seq<Seg>, data: seq<byte>, k: nat)
    requires HandsOut(sk, room, rest, data, k) && |Payloads(sk.rxBuf, sk.rxq)| <= room
    ensures rest == [] && data == Payloads(sk.rxBuf, sk.rxq)
  {
    hide Payload;
    PayloadsJoin(sk.rxBuf, sk.rxq[..k], sk.rxq[k..]);
    assert sk.rxq == sk.rxq[..k] + sk.rxq[k..];
  }
}
